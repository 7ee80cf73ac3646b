/** Permissive value decoders: each reads one JSON value and tries
    alternative shapes in a fixed order, either falling back to absence or
    failing with `valueNotFound` at the current coding path. */
module CustomSerialization {
  import opened Wrappers
  import opened Json
  import opened JsonDecoder
  import Decimal

  predicate IsSwiftInt(j: Json) {
    j.Num? && IntMin <= j.n <= IntMax
  }

  // ---------------------------------------------------------------- StringOrInt

  datatype StringOrInt = IntValue(i: int) | StringValue(s: string)

  const StringOrIntNotFound: string := "expected String or integer"

  /** `Int` is tried before `String`; only a value that is neither fails. */
  function DecodeStringOrInt(path: CodingPath, j: Json): (r: Decoded<StringOrInt>)
    ensures IsSwiftInt(j) ==> r == Success(IntValue(j.n))
    ensures j.Str? ==> r == Success(StringValue(j.s))
    ensures r.Failure? <==> !IsSwiftInt(j) && !j.Str?
    ensures r.Failure? ==> r.error == ValueNotFound("StringOrInt", Context(path, StringOrIntNotFound))
  {
    match DecodeSingleValue(IntType, path, j).ToOption()
    case Some(i) => Success(IntValue(i))
    case None =>
      match DecodeSingleValue(StringType, path, j).ToOption()
      case Some(s) => Success(StringValue(s))
      case None => Failure(ValueNotFound("StringOrInt", Context(path, StringOrIntNotFound)))
  }

  const StringOrIntType: Decodable<StringOrInt> := Decodable("StringOrInt", DecodeStringOrInt)

  /** `toString`: a string as it is, an integer as `"\(int)"` prints it, in
      canonical decimal (no leading zero, no `-0`), which reads back as the
      same integer; by `Decimal.CanonicalIsUnique` no other canonical text
      reads back as that integer. */
  function ToString(v: StringOrInt): (s: string)
    ensures v.StringValue? ==> s == v.s
    ensures v.IntValue? ==> s == Decimal.IntToString(v.i)
    ensures v.IntValue? ==> Decimal.IsCanonical(s) && Decimal.ParseInt(s) == Some(v.i)
  {
    match v
    case StringValue(s) => s
    case IntValue(i) =>
      Decimal.IntToStringRoundTrip(i);
      Decimal.IntToString(i)
  }

  // ---------------------------------------------------------------- Either

  datatype Either<L, R> = Left(left: L) | Right(right: R)

  function EitherName(l: string, r: string): string {
    "Either<" + l + ", " + r + ">"
  }

  function EitherNotFound<L, R>(l: Decodable<L>, r: Decodable<R>, path: CodingPath): DecodingError {
    ValueNotFound(EitherName(l.name, r.name), Context(path, "expected " + l.name + " or " + r.name))
  }

  /** Left-biased: `Left` wins whenever it decodes; `Right` is the result
      exactly when `Left` fails and `Right` succeeds; when both fail the error
      names both types and the current path. Both attempts go through the
      single-value container, so null fails even when `L` or `R` accepts it. */
  function DecodeEither<L, R>(l: Decodable<L>, r: Decodable<R>, path: CodingPath, j: Json): (res: Decoded<Either<L, R>>)
    ensures j.Null? ==> res == Failure(EitherNotFound(l, r, path))
    ensures !j.Null? && l.decode(path, j).Success? ==> res == Success(Left(l.decode(path, j).value))
    ensures !j.Null? && l.decode(path, j).Failure? && r.decode(path, j).Success? ==>
              res == Success(Right(r.decode(path, j).value))
    ensures res.Failure? <==> j.Null? || (l.decode(path, j).Failure? && r.decode(path, j).Failure?)
    ensures res.Failure? ==> res.error == EitherNotFound(l, r, path)
  {
    match DecodeSingleValue(l, path, j).ToOption()
    case Some(v) => Success(Left(v))
    case None =>
      match DecodeSingleValue(r, path, j).ToOption()
      case Some(v) => Success(Right(v))
      case None => Failure(EitherNotFound(l, r, path))
  }

  function EitherType<L, R>(l: Decodable<L>, r: Decodable<R>): (t: Decodable<Either<L, R>>)
    ensures t.name == EitherName(l.name, r.name)
    ensures forall path, j :: t.decode(path, j) == DecodeEither(l, r, path, j)
  {
    Decodable(EitherName(l.name, r.name), (path, j) => DecodeEither(l, r, path, j))
  }

  // ---------------------------------------------------------------- ValueOrArray

  datatype ValueOrArray<T> = ValueOrArray(value: seq<T>)

  function ValueOrArrayNotFound<T>(t: Decodable<T>, path: CodingPath): DecodingError {
    ValueNotFound("ValueOrArray<" + t.name + ">", Context(path, "expected " + t.name + " or [" + t.name + "]"))
  }

  /** `ValueOrArray.init(from:)` as written: `self.value` is assigned on either
      success branch, but neither branch returns, so control always reaches
      the `throw`. `stored` mirrors those assignments; the throw discards it. */
  function DecodeValueOrArrayAsWritten<T>(t: Decodable<T>, path: CodingPath, j: Json): (r: Decoded<ValueOrArray<T>>)
    ensures r == Failure(ValueOrArrayNotFound(t, path))
  {
    var stored :=
      (match DecodeSingleValue(t, path, j).ToOption()
       case Some(v) => Some([v])
       case None => DecodeSingleValue(ArrayType(t), path, j).ToOption());
    Failure(ValueOrArrayNotFound(t, path))
  }

  /** `ValueOrArray.init(from:)` as intended, returning on success: a single
      value becomes a one-element sequence, an array is kept as it is, and
      anything else, null included, fails naming both shapes. */
  function DecodeValueOrArray<T>(t: Decodable<T>, path: CodingPath, j: Json): (r: Decoded<ValueOrArray<T>>)
    ensures j.Null? ==> r == Failure(ValueOrArrayNotFound(t, path))
    ensures !j.Null? && t.decode(path, j).Success? ==> r == Success(ValueOrArray([t.decode(path, j).value]))
    ensures !j.Null? && t.decode(path, j).Failure? && DecodeArray(t, path, j).Success? ==>
              r == Success(ValueOrArray(DecodeArray(t, path, j).value))
    ensures r.Failure? <==> j.Null? || (t.decode(path, j).Failure? && DecodeArray(t, path, j).Failure?)
    ensures r.Failure? ==> r.error == ValueOrArrayNotFound(t, path)
  {
    match DecodeSingleValue(t, path, j).ToOption()
    case Some(v) => Success(ValueOrArray([v]))
    case None =>
      match DecodeSingleValue(ArrayType(t), path, j).ToOption()
      case Some(a) => Success(ValueOrArray(a))
      case None => Failure(ValueOrArrayNotFound(t, path))
  }

  /** The defect, on the smallest input: a bare string is rejected as written
      and accepted as a one-element array once the success branch returns. */
  lemma ValueOrArrayAsWrittenRejectsScalar()
    ensures DecodeValueOrArrayAsWritten(StringType, [], Str("x")).Failure?
    ensures DecodeValueOrArray(StringType, [], Str("x")) == Success(ValueOrArray(["x"]))
  {
  }

  /** `ValueOrArray<String>` on JSON values: a string gives itself alone, an
      array of strings gives those strings in order, and any other value
      (including an array holding a non-string) is refused. */
  lemma ValueOrArrayOfStrings(path: CodingPath, j: Json)
    ensures j.Str? ==> DecodeValueOrArray(StringType, path, j) == Success(ValueOrArray([j.s]))
    ensures j.Arr? && (forall i :: 0 <= i < |j.elems| ==> j.elems[i].Str?) ==>
              DecodeValueOrArray(StringType, path, j) ==
              Success(ValueOrArray(seq(|j.elems|, i requires 0 <= i < |j.elems| => j.elems[i].s)))
    ensures !j.Str? && !(j.Arr? && forall i :: 0 <= i < |j.elems| ==> j.elems[i].Str?) ==>
              DecodeValueOrArray(StringType, path, j) == Failure(ValueOrArrayNotFound(StringType, path))
  {
    if j.Arr? {
      var r := DecodeArray(StringType, path, j);
      assert forall i :: 0 <= i < |j.elems| ==>
        (DecodeAt(StringType, path, j.elems, i).Success? <==> j.elems[i].Str?);
      if r.Success? {
        var strings := seq(|j.elems|, i requires 0 <= i < |j.elems| => j.elems[i].s);
        assert forall i :: 0 <= i < |j.elems| ==> r.value[i] == strings[i] by {
          forall i | 0 <= i < |j.elems| ensures r.value[i] == strings[i] {
            assert DecodeAt(StringType, path, j.elems, i) == Success(r.value[i]);
          }
        }
        assert r.value == strings;
      }
    }
  }

  // ---------------------------------------------------------------- NilOr

  datatype NilOr<T> = NilOr(value: Option<T>)

  /** Never fails: holds the value when the input is not null and decodes
      as `T`, and `None` on null (refused by the single-value container
      before `T` sees it) and on any failure. */
  function DecodeNilOr<T>(t: Decodable<T>, path: CodingPath, j: Json): (r: Decoded<NilOr<T>>)
    ensures r.Success?
    ensures r.value.value.Some? <==> !j.Null? && t.decode(path, j).Success?
    ensures r.value.value.Some? ==> r.value.value.value == t.decode(path, j).value
  {
    Success(NilOr(DecodeSingleValue(t, path, j).ToOption()))
  }

  function NilOrType<T>(t: Decodable<T>): (n: Decodable<NilOr<T>>)
    ensures forall path, j :: n.decode(path, j) == DecodeNilOr(t, path, j)
  {
    Decodable("NilOr<" + t.name + ">", (path, j) => DecodeNilOr(t, path, j))
  }

  /** Null stays refused when the wrapped type itself accepts null: with
      `T = U?`, decoding `T` directly reads null as `.none`, yet each wrapper
      sees the single-value container's error instead. */
  lemma WrappersRefuseNullOfOptional<U>(u: Decodable<U>, other: Decodable<int>, path: CodingPath)
    ensures OptionalType(u).decode(path, Null) == Success(None)
    ensures DecodeEither(OptionalType(u), other, path, Null) == Failure(EitherNotFound(OptionalType(u), other, path))
    ensures DecodeValueOrArray(OptionalType(u), path, Null) == Failure(ValueOrArrayNotFound(OptionalType(u), path))
    ensures DecodeNilOr(OptionalType(u), path, Null) == Success(NilOr(None))
  {
  }

  // ---------------------------------------------------------------- Identifier

  /** `typealias Identifier = NilOr<Either<String,Int>>` */
  type Identifier = NilOr<Either<string, int>>

  const IdentifierType: Decodable<Identifier> := NilOrType(EitherType(StringType, IntType))

  /** An identifier never fails to decode: a string is kept as `Left`, a
      64-bit integer as `Right`, and anything else is absent. */
  function DecodeIdentifier(path: CodingPath, j: Json): (r: Decoded<Identifier>)
    ensures r.Success?
    ensures j.Str? ==> r.value == NilOr(Some(Left(j.s)))
    ensures IsSwiftInt(j) ==> r.value == NilOr(Some(Right(j.n)))
    ensures !j.Str? && !IsSwiftInt(j) ==> r.value == NilOr(None)
  {
    IdentifierType.decode(path, j)
  }
}
