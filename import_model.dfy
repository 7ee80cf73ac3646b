/** The "dirty" API model: what the permissive import decodes from the
    server's JSON. Almost every field is optional. */
module API {
  import opened Wrappers
  import opened Json
  import opened JsonDecoder

  datatype Response = Response(data: seq<Option<User>>, lastUpdated: Option<string>, lastPage: Option<bool>)

  datatype User = User(
    id: Option<string>,
    firstName: Option<string>,
    lastName: Option<string>,
    profilePicture: Option<string>,
    comments: seq<Option<Comment>>)

  datatype Comment = Comment(id: Option<string>, text: Option<string>, timeStamp: Option<string>)

  /** The synthesised `API.Comment.init(from:)`: every field is an optional string. */
  function DecodeComment(path: CodingPath, j: Json): (r: Decoded<Comment>)
    ensures r.Success? <==> j.Obj? && IsOptionalStringAt(j.fields, "id") &&
                            IsOptionalStringAt(j.fields, "text") && IsOptionalStringAt(j.fields, "timeStamp")
    ensures r.Success? ==>
              r.value == Comment(OptionalStringAt(j.fields, "id"), OptionalStringAt(j.fields, "text"),
                                 OptionalStringAt(j.fields, "timeStamp"))
  {
    var c :- Container(path, j);
    var id :- DecodeOptionalStringKey(c, "id");
    var text :- DecodeOptionalStringKey(c, "text");
    var timeStamp :- DecodeOptionalStringKey(c, "timeStamp");
    Success(Comment(id, text, timeStamp))
  }

  const CommentType: Decodable<Comment> := Decodable("Comment", DecodeComment)

  /** The outcome of decoding `[Comment?]` at `path`. */
  function DecodeComments(path: CodingPath, j: Json): Decoded<seq<Option<Comment>>> {
    DecodeArray(OptionalType(CommentType), path, j)
  }

  /** The comments of a user: an array in which each entry is null or a
      decodable comment. The list keeps one entry per array element, in
      order: `None` for null, the decoded comment otherwise. */
  lemma DecodeCommentsInJsonTerms(path: CodingPath, j: Json)
    ensures DecodeComments(path, j).Success? <==>
              j.Arr? && forall i :: 0 <= i < |j.elems| ==>
                j.elems[i].Null? || DecodeComment(path + [Index(i)], j.elems[i]).Success?
    ensures DecodeComments(path, j).Success? ==>
              var cs := DecodeComments(path, j).value;
              |cs| == |j.elems| &&
              forall i :: 0 <= i < |j.elems| ==>
                cs[i] == if j.elems[i].Null? then None else Some(DecodeComment(path + [Index(i)], j.elems[i]).value)
  {
    var t := OptionalType(CommentType);
    if j.Arr? {
      assert forall i :: 0 <= i < |j.elems| ==>
        DecodeAt(t, path, j.elems, i) == DecodeOptional(CommentType, path + [Index(i)], j.elems[i]);
    }
  }

  /** The synthesised `API.User.init(from:)`: optional strings and a required
      `comments` array whose entries may be null. */
  function DecodeUser(path: CodingPath, j: Json): (r: Decoded<User>)
    ensures r.Success? <==>
              j.Obj? && IsOptionalStringAt(j.fields, "id") && IsOptionalStringAt(j.fields, "firstName") &&
              IsOptionalStringAt(j.fields, "lastName") && IsOptionalStringAt(j.fields, "profilePicture") &&
              Lookup(j.fields, "comments").Some? &&
              DecodeComments(path + [Key("comments")], Lookup(j.fields, "comments").value).Success?
    ensures r.Success? ==>
              r.value == User(OptionalStringAt(j.fields, "id"), OptionalStringAt(j.fields, "firstName"),
                              OptionalStringAt(j.fields, "lastName"), OptionalStringAt(j.fields, "profilePicture"),
                              DecodeComments(path + [Key("comments")], Lookup(j.fields, "comments").value).value)
    ensures j.Obj? && Lookup(j.fields, "comments").None? ==> r.Failure?
  {
    var c :- Container(path, j);
    var id :- DecodeOptionalStringKey(c, "id");
    var firstName :- DecodeOptionalStringKey(c, "firstName");
    var lastName :- DecodeOptionalStringKey(c, "lastName");
    var profilePicture :- DecodeOptionalStringKey(c, "profilePicture");
    var comments :- DecodeKey(c, "comments", ArrayType(OptionalType(CommentType)));
    Success(User(id, firstName, lastName, profilePicture, comments))
  }

  const UserType: Decodable<User> := Decodable("User", DecodeUser)

  /** The outcome of decoding `[User?]` at `path`. */
  function DecodeUsers(path: CodingPath, j: Json): Decoded<seq<Option<User>>> {
    DecodeArray(OptionalType(UserType), path, j)
  }

  /** The users of a response, like the comments of a user: one entry per
      array element, `None` for null. */
  lemma DecodeUsersInJsonTerms(path: CodingPath, j: Json)
    ensures DecodeUsers(path, j).Success? <==>
              j.Arr? && forall i :: 0 <= i < |j.elems| ==>
                j.elems[i].Null? || DecodeUser(path + [Index(i)], j.elems[i]).Success?
    ensures DecodeUsers(path, j).Success? ==>
              var us := DecodeUsers(path, j).value;
              |us| == |j.elems| &&
              forall i :: 0 <= i < |j.elems| ==>
                us[i] == if j.elems[i].Null? then None else Some(DecodeUser(path + [Index(i)], j.elems[i]).value)
  {
    var t := OptionalType(UserType);
    if j.Arr? {
      assert forall i :: 0 <= i < |j.elems| ==>
        DecodeAt(t, path, j.elems, i) == DecodeOptional(UserType, path + [Index(i)], j.elems[i]);
    }
  }

  /** The synthesised `API.Response.init(from:)`: a required `data` array whose
      entries may be null, an optional string and an optional boolean. */
  function DecodeResponse(path: CodingPath, j: Json): (r: Decoded<Response>)
    ensures r.Success? <==>
              j.Obj? && Lookup(j.fields, "data").Some? &&
              DecodeUsers(path + [Key("data")], Lookup(j.fields, "data").value).Success? &&
              IsOptionalStringAt(j.fields, "lastUpdated") &&
              (Lookup(j.fields, "lastPage").None? || Lookup(j.fields, "lastPage").value.Null? ||
               Lookup(j.fields, "lastPage").value.Bool?)
    ensures r.Success? ==>
              r.value.data == DecodeUsers(path + [Key("data")], Lookup(j.fields, "data").value).value &&
              r.value.lastUpdated == OptionalStringAt(j.fields, "lastUpdated") &&
              r.value.lastPage == (if Lookup(j.fields, "lastPage").Some? && Lookup(j.fields, "lastPage").value.Bool?
                                   then Some(Lookup(j.fields, "lastPage").value.b) else None)
  {
    var c :- Container(path, j);
    var data :- DecodeKey(c, "data", ArrayType(OptionalType(UserType)));
    var lastUpdated :- DecodeOptionalStringKey(c, "lastUpdated");
    var lastPage :- DecodeIfPresent(c, "lastPage", BoolType);
    Success(Response(data, lastUpdated, lastPage))
  }

  // ---------------------------------------------------------------- sample payload

  function CommentRecord(id: string, text: string, timeStamp: string): Json {
    Obj([("id", Str(id)), ("text", Str(text)), ("timeStamp", Str(timeStamp))])
  }

  function UserRecord(id: string, firstName: string, lastName: string, comments: seq<Json>): Json {
    Obj([("id", Str(id)), ("firstName", Str(firstName)), ("lastName", Str(lastName)), ("comments", Arr(comments))])
  }

  /** A comment object with all three fields decodes with all three present. */
  lemma CommentRecordDecodes(path: CodingPath, id: string, text: string, timeStamp: string)
    ensures DecodeComment(path, CommentRecord(id, text, timeStamp)) == Success(Comment(Some(id), Some(text), Some(timeStamp)))
  {
    var f := CommentRecord(id, text, timeStamp).fields;
    LookupFirst(f, 0);
    LookupFirst(f, 1);
    LookupFirst(f, 2);
  }

  /** An object none of whose keys is a comment field still decodes, as a
      comment with every field absent. */
  lemma ForeignObjectDecodesAsEmptyComment(path: CodingPath, fields: seq<(string, Json)>)
    requires forall i :: 0 <= i < |fields| ==> fields[i].0 !in {"id", "text", "timeStamp"}
    ensures DecodeComment(path, Obj(fields)) == Success(Comment(None, None, None))
  {
    LookupFindsMember(fields, "id");
    LookupFindsMember(fields, "text");
    LookupFindsMember(fields, "timeStamp");
  }

  /** A user object with an id, both names and no picture decodes with its
      comments as decoded from the array. */
  lemma UserRecordDecodes(path: CodingPath, id: string, firstName: string, lastName: string, comments: seq<Json>)
    requires DecodeComments(path + [Key("comments")], Arr(comments)).Success?
    ensures DecodeUser(path, UserRecord(id, firstName, lastName, comments)) ==
            Success(User(Some(id), Some(firstName), Some(lastName), None,
                         DecodeComments(path + [Key("comments")], Arr(comments)).value))
  {
    var f := UserRecord(id, firstName, lastName, comments).fields;
    LookupFirst(f, 0);
    LookupFirst(f, 1);
    LookupFirst(f, 2);
    LookupFirst(f, 3);
    LookupFindsMember(f, "profilePicture");
  }

  /** A one-element array of comments decodes to its one comment. */
  lemma OneCommentDecodes(path: CodingPath, c0: Json)
    requires DecodeComment(path + [Index(0)], c0).Success?
    ensures DecodeComments(path, Arr([c0])) == Success([Some(DecodeComment(path + [Index(0)], c0).value)])
  {
    DecodeCommentsInJsonTerms(path, Arr([c0]));
    assert c0.Obj?;
    assert DecodeComments(path, Arr([c0])).Success?;
    var cs := DecodeComments(path, Arr([c0])).value;
    assert |cs| == 1;
    assert cs[0] == Some(DecodeComment(path + [Index(0)], c0).value);
    assert cs == [Some(DecodeComment(path + [Index(0)], c0).value)];
  }

  /** A two-element array of comments decodes to its two comments, in order. */
  lemma TwoCommentsDecode(path: CodingPath, c0: Json, c1: Json)
    requires DecodeComment(path + [Index(0)], c0).Success?
    requires DecodeComment(path + [Index(1)], c1).Success?
    ensures DecodeComments(path, Arr([c0, c1])) ==
            Success([Some(DecodeComment(path + [Index(0)], c0).value), Some(DecodeComment(path + [Index(1)], c1).value)])
  {
    DecodeCommentsInJsonTerms(path, Arr([c0, c1]));
    assert c0.Obj? && c1.Obj?;
    assert DecodeComments(path, Arr([c0, c1])).Success?;
    var cs := DecodeComments(path, Arr([c0, c1])).value;
    assert cs[0] == Some(DecodeComment(path + [Index(0)], c0).value);
    assert cs[1] == Some(DecodeComment(path + [Index(1)], c1).value);
    assert |cs| == 2;
    assert cs == [Some(DecodeComment(path + [Index(0)], c0).value), Some(DecodeComment(path + [Index(1)], c1).value)];
  }

  /** A two-element array of users decodes to its two users, in order. */
  lemma TwoUsersDecode(path: CodingPath, u0: Json, u1: Json)
    requires DecodeUser(path + [Index(0)], u0).Success?
    requires DecodeUser(path + [Index(1)], u1).Success?
    ensures DecodeUsers(path, Arr([u0, u1])) ==
            Success([Some(DecodeUser(path + [Index(0)], u0).value), Some(DecodeUser(path + [Index(1)], u1).value)])
  {
    DecodeUsersInJsonTerms(path, Arr([u0, u1]));
    assert u0.Obj? && u1.Obj?;
    assert DecodeUsers(path, Arr([u0, u1])).Success?;
    var us := DecodeUsers(path, Arr([u0, u1])).value;
    assert us[0] == Some(DecodeUser(path + [Index(0)], u0).value);
    assert us[1] == Some(DecodeUser(path + [Index(1)], u1).value);
    assert |us| == 2;
    assert us == [Some(DecodeUser(path + [Index(0)], u0).value), Some(DecodeUser(path + [Index(1)], u1).value)];
  }

  /** A user object holding only an id and its comments. */
  lemma IdOnlyUserDecodes(path: CodingPath, id: string, comments: seq<Json>)
    requires DecodeComments(path + [Key("comments")], Arr(comments)).Success?
    ensures DecodeUser(path, Obj([("id", Str(id)), ("comments", Arr(comments))])) ==
            Success(User(Some(id), None, None, None, DecodeComments(path + [Key("comments")], Arr(comments)).value))
  {
    var f := [("id", Str(id)), ("comments", Arr(comments))];
    LookupFirst(f, 0);
    LookupFirst(f, 1);
    LookupFindsMember(f, "firstName");
    LookupFindsMember(f, "lastName");
    LookupFindsMember(f, "profilePicture");
  }

  const SampleLastUpdated := "2018-06-12T13:01:43.587Z"

  const SampleComments1: seq<Json> := [CommentRecord("412321", "who disturbs me?", "6/12/18")]

  const SampleComments2: seq<Json> :=
    [CommentRecord("264632", "careful, they bite!", "6/11/18"), Obj([("foo", Str("264632"))])]

  const SampleUser1: Json := UserRecord("178790", "Rowenna", "Ravenclaw", SampleComments1)

  const SampleUser2: Json := UserRecord("18923", "Wilhelmina", "Grubbly-Plank", SampleComments2)

  /** The tree the playground's `jsonString` parses to. */
  const SampleJson: Json := Obj([
    ("data", Arr([SampleUser1, SampleUser2])),
    ("lastUpdated", Str(SampleLastUpdated)),
    ("lastPage", Bool(true))
  ])

  const SampleApiUser1: User :=
    User(Some("178790"), Some("Rowenna"), Some("Ravenclaw"), None,
         [Some(Comment(Some("412321"), Some("who disturbs me?"), Some("6/12/18")))])

  const SampleApiUser2: User :=
    User(Some("18923"), Some("Wilhelmina"), Some("Grubbly-Plank"), None,
         [Some(Comment(Some("264632"), Some("careful, they bite!"), Some("6/11/18"))),
          Some(Comment(None, None, None))])

  /** The API response the sample decodes to. */
  const SampleResponse: Response :=
    Response([Some(SampleApiUser1), Some(SampleApiUser2)], Some(SampleLastUpdated), Some(true))

  lemma SampleFirstUserDecodes(path: CodingPath)
    ensures DecodeUser(path, SampleUser1) == Success(SampleApiUser1)
  {
    var cp := path + [Key("comments")];
    CommentRecordDecodes(cp + [Index(0)], "412321", "who disturbs me?", "6/12/18");
    OneCommentDecodes(cp, SampleComments1[0]);
    UserRecordDecodes(path, "178790", "Rowenna", "Ravenclaw", SampleComments1);
  }

  lemma SampleSecondUserDecodes(path: CodingPath)
    ensures DecodeUser(path, SampleUser2) == Success(SampleApiUser2)
  {
    var cp := path + [Key("comments")];
    CommentRecordDecodes(cp + [Index(0)], "264632", "careful, they bite!", "6/11/18");
    ForeignObjectDecodesAsEmptyComment(cp + [Index(1)], [("foo", Str("264632"))]);
    TwoCommentsDecode(cp, SampleComments2[0], SampleComments2[1]);
    UserRecordDecodes(path, "18923", "Wilhelmina", "Grubbly-Plank", SampleComments2);
  }

  lemma SampleUsersDecode()
    ensures DecodeUsers([Key("data")], Arr([SampleUser1, SampleUser2])) == Success(SampleResponse.data)
  {
    var dp: CodingPath := [Key("data")];
    SampleFirstUserDecodes(dp + [Index(0)]);
    SampleSecondUserDecodes(dp + [Index(1)]);
    TwoUsersDecode(dp, SampleUser1, SampleUser2);
  }

  /** The sample payload decodes; its `{"foo": ...}` entry becomes a comment
      with every field absent. */
  lemma SampleDecodes()
    ensures DecodeResponse([], SampleJson) == Success(SampleResponse)
  {
    var f := SampleJson.fields;
    LookupFirst(f, 0);
    LookupFirst(f, 1);
    LookupFirst(f, 2);
    assert [] + [Key("data")] == [Key("data")];
    assert Lookup(f, "data") == Some(f[0].1);
    SampleUsersDecode();
    var r := DecodeResponse([], SampleJson);
    assert r.Success?;
    assert r.value.lastUpdated == Some(SampleLastUpdated);
    assert r.value.lastPage == Some(true);
  }
}

/** The "clean" model the rest of the application uses, and the failable
    conversions that build it from the API model: required fields, defaults,
    and lists filtered down to the records that convert. */
module Clean {
  import opened Wrappers
  import opened Seqs
  import opened Foundation
  import opened Json
  import opened JsonDecoder
  import API

  datatype User = User(
    id: string,
    firstName: Option<string>,
    lastName: Option<string>,
    profilePicture: Option<Url>,
    comments: seq<Comment>)

  datatype Comment = Comment(id: string, text: string, timeStamp: Date)

  datatype Response = Response(data: seq<User>, lastUpdated: Date, lastPage: bool)

  /** `Clean.Comment.init?`: a comment converts exactly when it exists, has an
      id and a text, and has a time stamp the short date formatter accepts;
      the fields are copied and the time stamp is the parsed date. */
  function CommentFromApi(comment: Option<API.Comment>, fmt: Formatters): (r: Option<Comment>)
    ensures r.Some? <==>
              comment.Some? && comment.value.id.Some? && comment.value.text.Some? &&
              comment.value.timeStamp.Some? && fmt.shortDate(comment.value.timeStamp.value).Some?
    ensures r.Some? ==>
              r.value == Comment(comment.value.id.value, comment.value.text.value,
                                 fmt.shortDate(comment.value.timeStamp.value).value)
  {
    var c :- comment;
    var id :- c.id;
    var text :- c.text;
    var stamp :- c.timeStamp;
    var date :- fmt.shortDate(stamp);
    Some(Comment(id, text, date))
  }

  /** `{ Clean.Comment($0) }` */
  function CommentConversion(fmt: Formatters): (f: Option<API.Comment> -> Option<Comment>)
    ensures forall c :: f(c) == CommentFromApi(c, fmt)
  {
    c => CommentFromApi(c, fmt)
  }

  /** `user.profilePicture?.toURL` */
  function ProfilePicture(picture: Option<string>, fmt: Formatters): Option<Url> {
    match picture
    case Some(s) => fmt.toURL(s)
    case None => None
  }

  /** `Clean.User.init?`: a user converts exactly when it exists and has an id
      (any id, the empty string included). The names are copied, the picture
      is the parsed URL (a missing or unparsable one is absent, never a reason
      to drop the user), and the comments are those that convert. */
  function UserFromApi(user: Option<API.User>, fmt: Formatters): (r: Option<User>)
    ensures r.Some? <==> user.Some? && user.value.id.Some?
    ensures r.Some? ==>
              && r.value.id == user.value.id.value
              && r.value.firstName == user.value.firstName
              && r.value.lastName == user.value.lastName
              && (user.value.profilePicture.None? ==> r.value.profilePicture.None?)
              && (user.value.profilePicture.Some? ==> r.value.profilePicture == fmt.toURL(user.value.profilePicture.value))
              && r.value.comments == FilterMap(user.value.comments, CommentConversion(fmt))
  {
    var u :- user;
    var id :- u.id;
    Some(User(id, u.firstName, u.lastName, ProfilePicture(u.profilePicture, fmt),
              FilterMap(u.comments, CommentConversion(fmt))))
  }

  /** `{ Clean.User($0) }` */
  function UserConversion(fmt: Formatters): (f: Option<API.User> -> Option<User>)
    ensures forall u :: f(u) == UserFromApi(u, fmt)
  {
    u => UserFromApi(u, fmt)
  }

  /** `Clean.Response.init?`: never nil despite its signature. The users are
      those that convert; `lastUpdated` is the parsed ISO 8601 date when there
      is one that parses, and `now` otherwise; `lastPage` is the given flag,
      and `false` when there is none. */
  function ResponseFromApi(response: API.Response, fmt: Formatters, now: Date): (r: Option<Response>)
    ensures r.Some?
    ensures r.value.data == FilterMap(response.data, UserConversion(fmt))
    ensures response.lastUpdated.Some? && fmt.iso8601(response.lastUpdated.value).Some? ==>
              r.value.lastUpdated == fmt.iso8601(response.lastUpdated.value).value
    ensures (response.lastUpdated.None? || fmt.iso8601(response.lastUpdated.value).None?) ==>
              r.value.lastUpdated == now
    ensures r.value.lastPage <==> response.lastPage.Some? && response.lastPage.value
  {
    var lastUpdated := if response.lastUpdated.Some? then fmt.iso8601(response.lastUpdated.value).GetOr(now) else now;
    Some(Response(FilterMap(response.data, UserConversion(fmt)), lastUpdated, response.lastPage.GetOr(false)))
  }

  // ---------------------------------------------------------------- comments of a user

  /** The comments of a converted user are survivors of the dirty list: no
      more of them, each the conversion of some dirty comment, and the
      survivors of an earlier part of the list before those of a later part. */
  lemma UserCommentsAreSurvivors(user: API.User, fmt: Formatters, k: nat)
    requires user.id.Some?
    requires k <= |user.comments|
    ensures UserFromApi(Some(user), fmt).Some?
    ensures var cs := UserFromApi(Some(user), fmt).value.comments;
            && |cs| <= |user.comments|
            && (forall c :: c in cs ==> exists i :: 0 <= i < |user.comments| && CommentFromApi(user.comments[i], fmt) == Some(c))
            && cs == FilterMap(user.comments[..k], CommentConversion(fmt)) + FilterMap(user.comments[k..], CommentConversion(fmt))
  {
    FilterMapKeepsOnlyValues(user.comments, CommentConversion(fmt));
    assert user.comments == user.comments[..k] + user.comments[k..];
    FilterMapAppend(user.comments[..k], user.comments[k..], CommentConversion(fmt));
  }

  /** A user whose every comment fails to convert still converts, with no comments. */
  lemma UserSurvivesLosingAllComments(user: API.User, fmt: Formatters)
    requires user.id.Some?
    requires forall i :: 0 <= i < |user.comments| ==> CommentFromApi(user.comments[i], fmt).None?
    ensures UserFromApi(Some(user), fmt) ==
            Some(User(user.id.value, user.firstName, user.lastName, ProfilePicture(user.profilePicture, fmt), []))
  {
    FilterMapKeepsOnlyValues(user.comments, CommentConversion(fmt));
  }

  // ---------------------------------------------------------------- determinism

  /** Two sets of conversions that return the same for every string. */
  ghost predicate SameConversions(f1: Formatters, f2: Formatters) {
    && (forall s :: f1.toURL(s) == f2.toURL(s))
    && (forall s :: f1.shortDate(s) == f2.shortDate(s))
    && (forall s :: f1.iso8601(s) == f2.iso8601(s))
  }

  /** The conversion has no hidden input: it depends only on the dirty
      response, on what the three parsers return and on "now". */
  lemma ConversionIsDeterministic(response: API.Response, f1: Formatters, f2: Formatters, now: Date)
    requires SameConversions(f1, f2)
    ensures ResponseFromApi(response, f1, now) == ResponseFromApi(response, f2, now)
  {
    forall i | 0 <= i < |response.data|
      ensures UserConversion(f1)(response.data[i]) == UserConversion(f2)(response.data[i])
    {
      var u := response.data[i];
      if u.Some? && u.value.id.Some? {
        FilterMapExtensional(u.value.comments, CommentConversion(f1), CommentConversion(f2));
      }
    }
    FilterMapExtensional(response.data, UserConversion(f1), UserConversion(f2));
  }

  // ---------------------------------------------------------------- round trip

  /** The string forms a clean value is written out with: a URL's string and
      two date renderings. */
  datatype Renderers = Renderers(url: Url -> string, shortDate: Date -> string, iso8601: Date -> string)

  function CommentToApi(c: Comment, render: Renderers): API.Comment {
    API.Comment(Some(c.id), Some(c.text), Some(render.shortDate(c.timeStamp)))
  }

  function CommentsToApi(cs: seq<Comment>, render: Renderers): seq<Option<API.Comment>> {
    if cs == [] then [] else [Some(CommentToApi(cs[0], render))] + CommentsToApi(cs[1..], render)
  }

  function UserToApi(u: User, render: Renderers): API.User {
    API.User(Some(u.id), u.firstName, u.lastName,
             match u.profilePicture case Some(url) => Some(render.url(url)) case None => None,
             CommentsToApi(u.comments, render))
  }

  function UsersToApi(us: seq<User>, render: Renderers): seq<Option<API.User>> {
    if us == [] then [] else [Some(UserToApi(us[0], render))] + UsersToApi(us[1..], render)
  }

  /** The dirty response a clean one is written out as. */
  function ResponseToApi(r: Response, render: Renderers): API.Response {
    API.Response(UsersToApi(r.data, render), Some(render.iso8601(r.lastUpdated)), Some(r.lastPage))
  }

  // What a written-out value becomes when it is read back. A short-style
  // date parser returns dates without a time of day and an ISO 8601 parser
  // keeps milliseconds at most, so in general a value does not come back
  // unchanged: these functions say what does come back.

  /** A comment is kept, holding the date its rendered time stamp parses
      to, or dropped when that rendering does not parse. */
  function CommentReread(c: Comment, fmt: Formatters, render: Renderers): Option<Comment> {
    match fmt.shortDate(render.shortDate(c.timeStamp))
    case Some(d) => Some(Comment(c.id, c.text, d))
    case None => None
  }

  function CommentRereading(fmt: Formatters, render: Renderers): (f: Comment -> Option<Comment>)
    ensures forall c :: f(c) == CommentReread(c, fmt, render)
  {
    c => CommentReread(c, fmt, render)
  }

  /** A user always comes back, with the URL its picture's string parses to
      (none if it does not parse) and the comments that come back. */
  function UserReread(u: User, fmt: Formatters, render: Renderers): User {
    User(u.id, u.firstName, u.lastName,
         match u.profilePicture case Some(url) => fmt.toURL(render.url(url)) case None => None,
         FilterMap(u.comments, CommentRereading(fmt, render)))
  }

  function UsersReread(us: seq<User>, fmt: Formatters, render: Renderers): seq<User> {
    if us == [] then [] else [UserReread(us[0], fmt, render)] + UsersReread(us[1..], fmt, render)
  }

  // The values that survive the trip unchanged.

  predicate CommentParsesBack(c: Comment, fmt: Formatters, render: Renderers) {
    fmt.shortDate(render.shortDate(c.timeStamp)) == Some(c.timeStamp)
  }

  predicate CommentsParseBack(cs: seq<Comment>, fmt: Formatters, render: Renderers) {
    forall i :: 0 <= i < |cs| ==> CommentParsesBack(cs[i], fmt, render)
  }

  predicate UserParsesBack(u: User, fmt: Formatters, render: Renderers) {
    && (u.profilePicture.Some? ==> fmt.toURL(render.url(u.profilePicture.value)) == u.profilePicture)
    && CommentsParseBack(u.comments, fmt, render)
  }

  predicate ResponseParsesBack(r: Response, fmt: Formatters, render: Renderers) {
    && fmt.iso8601(render.iso8601(r.lastUpdated)) == Some(r.lastUpdated)
    && forall i :: 0 <= i < |r.data| ==> UserParsesBack(r.data[i], fmt, render)
  }

  /** Written-out comments convert back to exactly the comments that come
      back: one whose rendered time stamp does not parse is dropped. */
  lemma {:induction false} CommentsComeBack(cs: seq<Comment>, fmt: Formatters, render: Renderers)
    ensures FilterMap(CommentsToApi(cs, render), CommentConversion(fmt)) == FilterMap(cs, CommentRereading(fmt, render))
  {
    if cs != [] {
      var dirty := CommentsToApi(cs, render);
      assert dirty[0] == Some(CommentToApi(cs[0], render));
      assert dirty[1..] == CommentsToApi(cs[1..], render);
      FilterMapCons(dirty, CommentConversion(fmt));
      FilterMapCons(cs, CommentRereading(fmt, render));
      CommentsComeBack(cs[1..], fmt, render);
    }
  }

  /** Rereading keeps a list of comments as it is exactly when each of its
      time stamps parses back to itself. */
  lemma {:induction false} CommentsRereadIff(cs: seq<Comment>, fmt: Formatters, render: Renderers)
    ensures FilterMap(cs, CommentRereading(fmt, render)) == cs <==> CommentsParseBack(cs, fmt, render)
  {
    if cs != [] {
      var f := CommentRereading(fmt, render);
      var rest := FilterMap(cs[1..], f);
      FilterMapCons(cs, f);
      CommentsRereadIff(cs[1..], fmt, render);
      assert CommentsParseBack(cs, fmt, render) <==>
             CommentParsesBack(cs[0], fmt, render) && CommentsParseBack(cs[1..], fmt, render) by {
        assert forall i :: 1 <= i < |cs| ==> cs[i] == cs[1..][i - 1];
      }
      if CommentParsesBack(cs[0], fmt, render) {
        assert FilterMap(cs, f) == [cs[0]] + rest;
        assert cs == [cs[0]] + cs[1..];
      } else if f(cs[0]).Some? {
        assert FilterMap(cs, f)[0] != cs[0];
      } else {
        FilterMapKeepsOnlyValues(cs[1..], f);
        assert |FilterMap(cs, f)| < |cs|;
      }
    }
  }

  /** Written-out clean comments convert back to the same list exactly when
      every time stamp parses back to itself. */
  lemma CommentsRoundTrip(cs: seq<Comment>, fmt: Formatters, render: Renderers)
    ensures FilterMap(CommentsToApi(cs, render), CommentConversion(fmt)) == cs <==> CommentsParseBack(cs, fmt, render)
  {
    CommentsComeBack(cs, fmt, render);
    CommentsRereadIff(cs, fmt, render);
  }

  /** A written-out user always converts back (it has an id), as the user
      that comes back. */
  lemma UserComesBack(u: User, fmt: Formatters, render: Renderers)
    ensures UserFromApi(Some(UserToApi(u, render)), fmt) == Some(UserReread(u, fmt, render))
  {
    CommentsComeBack(u.comments, fmt, render);
  }

  lemma UserRereadIff(u: User, fmt: Formatters, render: Renderers)
    ensures UserReread(u, fmt, render) == u <==> UserParsesBack(u, fmt, render)
  {
    CommentsRereadIff(u.comments, fmt, render);
  }

  /** A written-out user converts back to itself exactly when its picture's
      URL and its comments' time stamps parse back to themselves. */
  lemma UserRoundTrip(u: User, fmt: Formatters, render: Renderers)
    ensures UserFromApi(Some(UserToApi(u, render)), fmt) == Some(u) <==> UserParsesBack(u, fmt, render)
  {
    UserComesBack(u, fmt, render);
    UserRereadIff(u, fmt, render);
  }

  lemma {:induction false} UsersComeBack(us: seq<User>, fmt: Formatters, render: Renderers)
    ensures FilterMap(UsersToApi(us, render), UserConversion(fmt)) == UsersReread(us, fmt, render)
  {
    if us != [] {
      var dirty := UsersToApi(us, render);
      assert dirty[0] == Some(UserToApi(us[0], render));
      assert dirty[1..] == UsersToApi(us[1..], render);
      FilterMapCons(dirty, UserConversion(fmt));
      UserComesBack(us[0], fmt, render);
      UsersComeBack(us[1..], fmt, render);
    }
  }

  lemma {:induction false} UsersRereadIff(us: seq<User>, fmt: Formatters, render: Renderers)
    ensures UsersReread(us, fmt, render) == us <==> forall i :: 0 <= i < |us| ==> UserParsesBack(us[i], fmt, render)
  {
    if us != [] {
      UserRereadIff(us[0], fmt, render);
      UsersRereadIff(us[1..], fmt, render);
      assert us == [us[0]] + us[1..];
      assert forall i :: 1 <= i < |us| ==> us[i] == us[1..][i - 1];
    }
  }

  /** Every written-out user converts back, so a list of users keeps its
      length; it converts back to itself exactly when every user parses back. */
  lemma UsersRoundTrip(us: seq<User>, fmt: Formatters, render: Renderers)
    ensures |FilterMap(UsersToApi(us, render), UserConversion(fmt))| == |us|
    ensures FilterMap(UsersToApi(us, render), UserConversion(fmt)) == us <==>
            forall i :: 0 <= i < |us| ==> UserParsesBack(us[i], fmt, render)
  {
    UsersComeBack(us, fmt, render);
    UsersRereadLength(us, fmt, render);
    UsersRereadIff(us, fmt, render);
  }

  lemma {:induction false} UsersRereadLength(us: seq<User>, fmt: Formatters, render: Renderers)
    ensures |UsersReread(us, fmt, render)| == |us|
  {
    if us != [] {
      UsersRereadLength(us[1..], fmt, render);
    }
  }

  /** What a written-out response converts back to, for every response: the
      users that come back, the date its ISO 8601 rendering parses to (or
      `now`), and the same `lastPage`. */
  lemma ResponseComesBack(r: Response, fmt: Formatters, render: Renderers, now: Date)
    ensures ResponseFromApi(ResponseToApi(r, render), fmt, now) ==
            Some(Response(UsersReread(r.data, fmt, render), fmt.iso8601(render.iso8601(r.lastUpdated)).GetOr(now), r.lastPage))
  {
    UsersComeBack(r.data, fmt, render);
  }

  /** A written-out response converts back to itself, whatever "now" is,
      when its date and every user parse back; conversely, when it comes
      back unchanged every user parsed back, and its date did too unless it
      was "now" itself. */
  lemma ResponseRoundTrip(r: Response, fmt: Formatters, render: Renderers, now: Date)
    ensures ResponseParsesBack(r, fmt, render) ==> ResponseFromApi(ResponseToApi(r, render), fmt, now) == Some(r)
    ensures ResponseFromApi(ResponseToApi(r, render), fmt, now) == Some(r) ==>
              && (forall i :: 0 <= i < |r.data| ==> UserParsesBack(r.data[i], fmt, render))
              && (fmt.iso8601(render.iso8601(r.lastUpdated)) == Some(r.lastUpdated) || r.lastUpdated == now)
  {
    ResponseComesBack(r, fmt, render, now);
    UsersRereadIff(r.data, fmt, render);
  }

  // ---------------------------------------------------------------- scenarios

  /** A user with an id and one well-formed comment converts with that comment. */
  lemma UserWithOneCommentConverts(fmt: Formatters)
    requires fmt.shortDate("6/12/18").Some?
    ensures var j := Obj([("id", Str("1")), ("comments", Arr([API.CommentRecord("2", "hi", "6/12/18")]))]);
            && API.DecodeUser([], j).Success?
            && UserFromApi(Some(API.DecodeUser([], j).value), fmt) ==
               Some(User("1", None, None, None, [Comment("2", "hi", fmt.shortDate("6/12/18").value)]))
  {
    var cs := [API.CommentRecord("2", "hi", "6/12/18")];
    var cp: CodingPath := [] + [Key("comments")];
    API.CommentRecordDecodes(cp + [Index(0)], "2", "hi", "6/12/18");
    API.OneCommentDecodes(cp, cs[0]);
    API.IdOnlyUserDecodes([], "1", cs);
    var dirty := [Some(API.Comment(Some("2"), Some("hi"), Some("6/12/18")))];
    FilterMapSingleton(dirty[0], CommentConversion(fmt));
  }

  /** A user without an id is dropped, whatever else it carries. */
  lemma UserWithoutIdIsDropped(fmt: Formatters)
    ensures var j := Obj([("firstName", Str("x")), ("comments", Arr([]))]);
            && API.DecodeUser([], j).Success?
            && UserFromApi(Some(API.DecodeUser([], j).value), fmt).None?
  {
    var j := Obj([("firstName", Str("x")), ("comments", Arr([]))]);
    LookupFirst(j.fields, 0);
    LookupFirst(j.fields, 1);
    LookupFindsMember(j.fields, "id");
    LookupFindsMember(j.fields, "lastName");
    LookupFindsMember(j.fields, "profilePicture");
    API.DecodeCommentsInJsonTerms([] + [Key("comments")], Arr([]));
  }

  /** A comment whose time stamp does not parse is dropped, and its user
      converts without it. */
  lemma UnparsableTimeStampDropsComment(fmt: Formatters)
    requires fmt.shortDate("not-a-date").None?
    ensures var j := Obj([("id", Str("1")), ("comments", Arr([API.CommentRecord("2", "hi", "not-a-date")]))]);
            && API.DecodeUser([], j).Success?
            && CommentFromApi(API.DecodeUser([], j).value.comments[0], fmt).None?
            && UserFromApi(Some(API.DecodeUser([], j).value), fmt) == Some(User("1", None, None, None, []))
  {
    var cs := [API.CommentRecord("2", "hi", "not-a-date")];
    var cp: CodingPath := [] + [Key("comments")];
    API.CommentRecordDecodes(cp + [Index(0)], "2", "hi", "not-a-date");
    API.OneCommentDecodes(cp, cs[0]);
    API.IdOnlyUserDecodes([], "1", cs);
    var dirty := [Some(API.Comment(Some("2"), Some("hi"), Some("not-a-date")))];
    FilterMapSingleton(dirty[0], CommentConversion(fmt));
  }

  // ---------------------------------------------------------------- sample import

  function KeptIfParsed(id: string, text: string, date: Option<Date>): seq<Comment> {
    if date.Some? then [Comment(id, text, date.value)] else []
  }

  lemma SampleFirstUserImports(fmt: Formatters)
    ensures UserFromApi(Some(API.SampleApiUser1), fmt) ==
            Some(User("178790", Some("Rowenna"), Some("Ravenclaw"), None,
                      KeptIfParsed("412321", "who disturbs me?", fmt.shortDate("6/12/18"))))
  {
    var c0 := API.SampleApiUser1.comments;
    FilterMapSingleton(c0[0], CommentConversion(fmt));
  }

  lemma SampleSecondUserImports(fmt: Formatters)
    ensures UserFromApi(Some(API.SampleApiUser2), fmt) ==
            Some(User("18923", Some("Wilhelmina"), Some("Grubbly-Plank"), None,
                      KeptIfParsed("264632", "careful, they bite!", fmt.shortDate("6/11/18"))))
  {
    var c1 := API.SampleApiUser2.comments;
    assert c1 == [c1[0]] + [c1[1]];
    FilterMapAppend([c1[0]], [c1[1]], CommentConversion(fmt));
    FilterMapSingleton(c1[0], CommentConversion(fmt));
    FilterMapSingleton(c1[1], CommentConversion(fmt));
  }

  /** The clean response the sample is expected to convert to. */
  function SampleCleanResponse(fmt: Formatters, now: Date): Response {
    Response([
        User("178790", Some("Rowenna"), Some("Ravenclaw"), None,
             KeptIfParsed("412321", "who disturbs me?", fmt.shortDate("6/12/18"))),
        User("18923", Some("Wilhelmina"), Some("Grubbly-Plank"), None,
             KeptIfParsed("264632", "careful, they bite!", fmt.shortDate("6/11/18")))
      ],
      fmt.iso8601(API.SampleLastUpdated).GetOr(now), true)
  }

  lemma SampleResponseImports(fmt: Formatters, now: Date)
    ensures ResponseFromApi(API.SampleResponse, fmt, now) == Some(SampleCleanResponse(fmt, now))
  {
    var data := API.SampleResponse.data;
    SampleFirstUserImports(fmt);
    SampleSecondUserImports(fmt);
    assert data == [data[0]] + [data[1]];
    FilterMapAppend([data[0]], [data[1]], UserConversion(fmt));
    FilterMapSingleton(data[0], UserConversion(fmt));
    FilterMapSingleton(data[1], UserConversion(fmt));
    var c := ResponseFromApi(API.SampleResponse, fmt, now).value;
    assert c.lastUpdated == fmt.iso8601(API.SampleLastUpdated).GetOr(now);
    assert c.data == [UserFromApi(data[0], fmt).value, UserFromApi(data[1], fmt).value];
  }

  /** The sample payload decodes and converts to both of its users. The
      `{"foo": ...}` entry is dropped whatever the date parser does; each
      other comment is kept exactly when its time stamp parses; the response
      carries the parsed update time, or "now", and is the last page. */
  lemma SampleImport(fmt: Formatters, now: Date)
    ensures API.DecodeResponse([], API.SampleJson).Success?
    ensures ResponseFromApi(API.DecodeResponse([], API.SampleJson).value, fmt, now) == Some(SampleCleanResponse(fmt, now))
  {
    API.SampleDecodes();
    SampleResponseImports(fmt, now);
  }
}
