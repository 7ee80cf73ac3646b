/** How Foundation's `JSONDecoder` reads a `Json` tree: the primitive
    `String`, `Int` and `Bool` decoders, keyed containers with `decode(_:forKey:)`
    and `decodeIfPresent(_:forKey:)`, arrays, optionals, and the
    `DecodingError` cases they throw, each carrying the coding path at which
    decoding stopped. These are the building blocks of every synthesised
    `Decodable` conformance in the model. */
module JsonDecoder {
  import opened Wrappers
  import opened Json

  /** One step of a coding path: an object key or an array position. */
  datatype CodingKey = Key(name: string) | Index(index: nat)

  type CodingPath = seq<CodingKey>

  datatype Context = Context(codingPath: CodingPath, debugDescription: string)

  /** Swift's `DecodingError`; a type is named by its printed name. */
  datatype DecodingError =
    | TypeMismatch(typeName: string, context: Context)
    | ValueNotFound(typeName: string, context: Context)
    | KeyNotFound(key: CodingKey, context: Context)
    | DataCorrupted(context: Context)

  type Decoded<T> = Result<T, DecodingError>

  /** A decodable type `T.self`: its printed name and its `init(from:)`, which
      reads the value found at the given coding path. */
  datatype Decodable<T> = Decodable(name: string, decode: (CodingPath, Json) -> Decoded<T>)

  /** Swift's `Int` is 64 bits wide. */
  const IntMin: int := -0x8000_0000_0000_0000
  const IntMax: int := 0x7FFF_FFFF_FFFF_FFFF

  function NullFound(typeName: string, path: CodingPath): DecodingError {
    ValueNotFound(typeName, Context(path, "Expected " + typeName + " value but found null instead."))
  }

  function Mismatch(typeName: string, path: CodingPath): DecodingError {
    TypeMismatch(typeName, Context(path, "Expected to decode " + typeName + " but found another kind of value instead."))
  }

  function DecodeString(path: CodingPath, j: Json): (r: Decoded<string>)
    ensures r.Success? <==> j.Str?
    ensures r.Success? ==> r.value == j.s
    ensures j.Null? ==> r == Failure(NullFound("String", path))
    ensures !j.Str? && !j.Null? ==> r == Failure(Mismatch("String", path))
  {
    match j
    case Str(s) => Success(s)
    case Null => Failure(NullFound("String", path))
    case _ => Failure(Mismatch("String", path))
  }

  /** A JSON number decodes as `Int` only when it fits in 64 bits. */
  function DecodeInt(path: CodingPath, j: Json): (r: Decoded<int>)
    ensures r.Success? <==> j.Num? && IntMin <= j.n <= IntMax
    ensures r.Success? ==> r.value == j.n
    ensures j.Num? && !(IntMin <= j.n <= IntMax) ==> r.Failure? && r.error.DataCorrupted?
    ensures j.Null? ==> r == Failure(NullFound("Int", path))
    ensures !j.Num? && !j.Null? ==> r == Failure(Mismatch("Int", path))
  {
    match j
    case Num(n) =>
      if IntMin <= n <= IntMax then Success(n)
      else Failure(DataCorrupted(Context(path, "Parsed JSON number does not fit in Int.")))
    case Null => Failure(NullFound("Int", path))
    case _ => Failure(Mismatch("Int", path))
  }

  function DecodeBool(path: CodingPath, j: Json): (r: Decoded<bool>)
    ensures r.Success? <==> j.Bool?
    ensures r.Success? ==> r.value == j.b
    ensures j.Null? ==> r == Failure(NullFound("Bool", path))
    ensures !j.Bool? && !j.Null? ==> r == Failure(Mismatch("Bool", path))
  {
    match j
    case Bool(b) => Success(b)
    case Null => Failure(NullFound("Bool", path))
    case _ => Failure(Mismatch("Bool", path))
  }

  const StringType: Decodable<string> := Decodable("String", DecodeString)
  const IntType: Decodable<int> := Decodable("Int", DecodeInt)
  const BoolType: Decodable<bool> := Decodable("Bool", DecodeBool)

  /** `decoder.container(keyedBy:)`: the members of an object, at the decoder's path. */
  datatype KeyedContainer = KeyedContainer(codingPath: CodingPath, fields: seq<(string, Json)>)

  function Container(path: CodingPath, j: Json): (r: Decoded<KeyedContainer>)
    ensures r.Success? <==> j.Obj?
    ensures r.Success? ==> r.value == KeyedContainer(path, j.fields)
    ensures j.Null? ==> r.Failure? && r.error.ValueNotFound? && r.error.context.codingPath == path
    ensures !j.Obj? && !j.Null? ==> r.Failure? && r.error.TypeMismatch? && r.error.context.codingPath == path
  {
    match j
    case Obj(fields) => Success(KeyedContainer(path, fields))
    case Null => Failure(ValueNotFound("KeyedDecodingContainer",
                   Context(path, "Cannot get keyed decoding container -- found null value instead.")))
    case _ => Failure(Mismatch("Dictionary<String, Any>", path))
  }

  function MissingKey(c: KeyedContainer, key: string): DecodingError {
    KeyNotFound(Key(key), Context(c.codingPath, "No value associated with key " + key + "."))
  }

  /** `container.decode(T.self, forKey: key)`: the key must be present; its value
      is decoded one level down the coding path and any error propagates. */
  function DecodeKey<T>(c: KeyedContainer, key: string, t: Decodable<T>): (r: Decoded<T>)
    ensures Lookup(c.fields, key).None? ==> r == Failure(MissingKey(c, key))
    ensures Lookup(c.fields, key).Some? ==>
              r == t.decode(c.codingPath + [Key(key)], Lookup(c.fields, key).value)
  {
    match Lookup(c.fields, key)
    case None => Failure(MissingKey(c, key))
    case Some(v) => t.decode(c.codingPath + [Key(key)], v)
  }

  /** `container.decodeIfPresent(T.self, forKey: key)`, the synthesised decoding
      of an optional field: an absent key or a null value gives `None`; any
      other value must decode as `T`, and an error propagates. */
  function DecodeIfPresent<T>(c: KeyedContainer, key: string, t: Decodable<T>): (r: Decoded<Option<T>>)
    ensures (Lookup(c.fields, key).None? || Lookup(c.fields, key) == Some(Null)) ==> r == Success(None)
    ensures Lookup(c.fields, key).Some? && Lookup(c.fields, key) != Some(Null) ==>
              var inner := t.decode(c.codingPath + [Key(key)], Lookup(c.fields, key).value);
              (r.Success? <==> inner.Success?) &&
              (r.Success? ==> r.value == Some(inner.value)) &&
              (r.Failure? ==> r.error == inner.error)
  {
    match Lookup(c.fields, key)
    case None => Success(None)
    case Some(v) =>
      if v.Null? then Success(None)
      else
        var x :- t.decode(c.codingPath + [Key(key)], v);
        Success(Some(x))
  }

  /** The outcome of decoding element `i` of an array whose own path is `path`. */
  function DecodeAt<T>(t: Decodable<T>, path: CodingPath, elems: seq<Json>, i: nat): Decoded<T>
    requires i < |elems|
  {
    t.decode(path + [Index(i)], elems[i])
  }

  /** Decodes `elems[k..]`, stopping at the first element that fails. */
  function DecodeElements<T>(t: Decodable<T>, path: CodingPath, elems: seq<Json>, k: nat): (r: Decoded<seq<T>>)
    requires k <= |elems|
    decreases |elems| - k
    ensures r.Success? <==> forall i :: k <= i < |elems| ==> DecodeAt(t, path, elems, i).Success?
    ensures r.Success? ==> |r.value| == |elems| - k
    ensures r.Success? ==> forall i :: k <= i < |elems| ==> DecodeAt(t, path, elems, i) == Success(r.value[i - k])
    ensures r.Failure? ==>
              exists i :: k <= i < |elems| && DecodeAt(t, path, elems, i) == Failure(r.error) &&
                          forall i' :: k <= i' < i ==> DecodeAt(t, path, elems, i').Success?
  {
    if k == |elems| then Success([])
    else
      var x :- DecodeAt(t, path, elems, k);
      var rest :- DecodeElements(t, path, elems, k + 1);
      Success([x] + rest)
  }

  /** Decoding `[T].self`: all-or-nothing, in order, element `i` at path `path + [Index(i)]`. */
  function DecodeArray<T>(t: Decodable<T>, path: CodingPath, j: Json): (r: Decoded<seq<T>>)
    ensures r.Success? <==> j.Arr? && forall i :: 0 <= i < |j.elems| ==> DecodeAt(t, path, j.elems, i).Success?
    ensures r.Success? ==> |r.value| == |j.elems| &&
                           forall i :: 0 <= i < |j.elems| ==> DecodeAt(t, path, j.elems, i) == Success(r.value[i])
    ensures j.Arr? && r.Failure? ==>
              exists i :: 0 <= i < |j.elems| && DecodeAt(t, path, j.elems, i) == Failure(r.error) &&
                          forall i' :: 0 <= i' < i ==> DecodeAt(t, path, j.elems, i').Success?
    ensures j.Null? ==> r.Failure? && r.error.ValueNotFound? && r.error.context.codingPath == path
    ensures !j.Arr? && !j.Null? ==> r.Failure? && r.error.TypeMismatch? && r.error.context.codingPath == path
  {
    match j
    case Arr(elems) => DecodeElements(t, path, elems, 0)
    case Null => Failure(ValueNotFound("UnkeyedDecodingContainer",
                   Context(path, "Cannot get unkeyed decoding container -- found null value instead.")))
    case _ => Failure(Mismatch("Array<Any>", path))
  }

  function ArrayType<T>(t: Decodable<T>): Decodable<seq<T>> {
    Decodable("Array<" + t.name + ">", (path, j) => DecodeArray(t, path, j))
  }

  /** `Optional<T>`'s `init(from:)`: null is `None`, anything else must decode as `T`. */
  function DecodeOptional<T>(t: Decodable<T>, path: CodingPath, j: Json): (r: Decoded<Option<T>>)
    ensures j.Null? ==> r == Success(None)
    ensures !j.Null? ==> (r.Success? <==> t.decode(path, j).Success?)
    ensures !j.Null? && r.Success? ==> r.value == Some(t.decode(path, j).value)
    ensures !j.Null? && r.Failure? ==> r.error == t.decode(path, j).error
  {
    if j.Null? then Success(None)
    else
      var x :- t.decode(path, j);
      Success(Some(x))
  }

  function OptionalType<T>(t: Decodable<T>): Decodable<Option<T>> {
    Decodable("Optional<" + t.name + ">", (path, j) => DecodeOptional(t, path, j))
  }

  /** The error a single-value container raises on null before the target
      type's own decoding runs. */
  function SingleValueNull(typeName: string, path: CodingPath): DecodingError {
    ValueNotFound(typeName, Context(path, "Expected " + typeName + " but found null value instead."))
  }

  /** `singleValueContainer().decode(T.self)`: null is refused as a missing
      value whatever `T` is, even a `T` whose own decoding accepts null;
      any other value is decoded as `T` at the same coding path. */
  function DecodeSingleValue<T>(t: Decodable<T>, path: CodingPath, j: Json): (r: Decoded<T>)
    ensures j.Null? ==> r == Failure(SingleValueNull(t.name, path))
    ensures !j.Null? ==> r == t.decode(path, j)
  {
    if j.Null? then Failure(SingleValueNull(t.name, path)) else t.decode(path, j)
  }

  /** The check on null is what tells the single-value container apart from
      decoding `T?` directly: `Optional<T>` reads null as `None`, but through
      the container the same null is an error. */
  lemma SingleValueRefusesNullOptional<T>(t: Decodable<T>, path: CodingPath)
    ensures OptionalType(t).decode(path, Null) == Success(None)
    ensures DecodeSingleValue(OptionalType(t), path, Null) ==
            Failure(SingleValueNull("Optional<" + t.name + ">", path))
  {
  }


  // What a synthesised `String` or `String?` field accepts, in terms of the JSON object.

  predicate IsStringAt(fields: seq<(string, Json)>, key: string) {
    Lookup(fields, key).Some? && Lookup(fields, key).value.Str?
  }

  predicate IsOptionalStringAt(fields: seq<(string, Json)>, key: string) {
    match Lookup(fields, key)
    case None => true
    case Some(v) => v.Null? || v.Str?
  }

  function OptionalStringAt(fields: seq<(string, Json)>, key: string): Option<string> {
    match Lookup(fields, key)
    case Some(Str(s)) => Some(s)
    case _ => None
  }

  /** A required `String` field decodes exactly when the key holds a string. */
  function DecodeStringKey(c: KeyedContainer, key: string): (r: Decoded<string>)
    ensures r.Success? <==> IsStringAt(c.fields, key)
    ensures r.Success? ==> r.value == Lookup(c.fields, key).value.s
    ensures Lookup(c.fields, key).None? ==> r == Failure(MissingKey(c, key))
  {
    DecodeKey(c, key, StringType)
  }

  /** An optional `String` field decodes exactly when the key is absent, null
      or a string, and holds the string when there is one. */
  function DecodeOptionalStringKey(c: KeyedContainer, key: string): (r: Decoded<Option<string>>)
    ensures r.Success? <==> IsOptionalStringAt(c.fields, key)
    ensures r.Success? ==> r.value == OptionalStringAt(c.fields, key)
  {
    DecodeIfPresent(c, key, StringType)
  }
}
