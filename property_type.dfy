/**
 * The type-erased property value of lib/abstractpropertytype.h.
 *
 * `AbstractPropertyType` holds one `boost::any`: a value together with the
 * run-time tag of its type.  `BasicPropertyType<T>` derives from it, fixes the
 * type parameter `T`, and adds constructors (from a `T`, by copy, by parsing a
 * string), copy assignment and a `toString` that formats the held `T`.
 *
 * Both C++ classes are modelled by the one class `PropertyValue`; its constant
 * `typeArg` records which of them an object is (`None` for a plain
 * `AbstractPropertyType`, `Some(T)` for a `BasicPropertyType<T>`), which is
 * what the virtual call to `toString` dispatches on.
 */
module PropertyType {
  import opened Wrappers

  /** The instantiations of `T` the model covers. */
  datatype TypeTag = IntType | BoolType | StringType

  /** A `boost::any`: empty, or one value carrying its own type tag. */
  datatype Any = Empty | IntV(i: int) | BoolV(b: bool) | StrV(s: string)
  {
    /** The run-time type held, `None` for an empty `boost::any`. */
    function Type(): Option<TypeTag>
    {
      match this
      case Empty => None
      case IntV(_) => Some(IntType)
      case BoolV(_) => Some(BoolType)
      case StrV(_) => Some(StringType)
    }
  }

  /** The two exceptions the header can raise. */
  datatype CastError = BadAnyCast | BadLexicalCast

  datatype Result<T> = Ok(value: T) | Err(error: CastError)

  /**
   * `boost::any_cast<T>`: gives back the held value when its tag is exactly
   * `t`, and throws `bad_any_cast` otherwise.  There is no coercion between
   * types, and an empty `boost::any` matches no type.
   */
  function AnyCast(a: Any, t: TypeTag): (r: Result<Any>)
    ensures r.Ok? <==> a.Type() == Some(t)
    ensures r.Ok? ==> r.value == a
    ensures r.Err? ==> r.error == BadAnyCast
  {
    match (a, t)
    case (IntV(_), IntType) => Ok(a)
    case (BoolV(_), BoolType) => Ok(a)
    case (StrV(_), StringType) => Ok(a)
    case _ => Err(BadAnyCast)
  }

  /**
   * The text conversions of the C++ library (`boost::lexical_cast` from a
   * string, `operator<<` on a `std::stringstream`), left uninterpreted: a
   * parser returns `None` where the library throws `bad_lexical_cast`.
   */
  datatype Lexical = Lexical(
    parseInt: string -> Option<int>,
    parseBool: string -> Option<bool>,
    parseString: string -> Option<string>,
    formatInt: int -> string,
    formatBool: bool -> string,
    formatString: string -> string)

  /** True when the library parser for `t` accepts `s`. */
  predicate Accepts(lex: Lexical, t: TypeTag, s: string)
  {
    match t
    case IntType => lex.parseInt(s).Some?
    case BoolType => lex.parseBool(s).Some?
    case StringType => lex.parseString(s).Some?
  }

  /**
   * `boost::lexical_cast<T, std::string>`: a value of type `t` when the
   * parser accepts the text, `bad_lexical_cast` otherwise.
   */
  function LexicalCast(lex: Lexical, t: TypeTag, s: string): (r: Result<Any>)
    ensures r.Ok? <==> Accepts(lex, t, s)
    ensures r.Ok? ==> r.value.Type() == Some(t)
    ensures r.Err? ==> r.error == BadLexicalCast
    ensures t == IntType && r.Ok? ==> r.value == IntV(lex.parseInt(s).value)
    ensures t == BoolType && r.Ok? ==> r.value == BoolV(lex.parseBool(s).value)
    ensures t == StringType && r.Ok? ==> r.value == StrV(lex.parseString(s).value)
  {
    match t
    case IntType =>
      (match lex.parseInt(s) case Some(n) => Ok(IntV(n)) case None => Err(BadLexicalCast))
    case BoolType =>
      (match lex.parseBool(s) case Some(b) => Ok(BoolV(b)) case None => Err(BadLexicalCast))
    case StringType =>
      (match lex.parseString(s) case Some(x) => Ok(StrV(x)) case None => Err(BadLexicalCast))
  }

  /** Writing a non-empty value to a `std::stringstream` and taking its text. */
  function Format(lex: Lexical, a: Any): string
    requires a.Type().Some?
  {
    match a
    case IntV(n) => lex.formatInt(n)
    case BoolV(b) => lex.formatBool(b)
    case StrV(x) => lex.formatString(x)
  }

  class PropertyValue {
    /** `None` for an `AbstractPropertyType`, `Some(T)` for a `BasicPropertyType<T>`. */
    const typeArg: Option<TypeTag>
    /** The `boost::any mValue` member. */
    var mValue: Any

    /** A plain `AbstractPropertyType`, whose `boost::any` starts empty. */
    constructor Abstract()
      ensures typeArg == None && mValue == Empty
      ensures forall t :: Value(t) == Err(BadAnyCast)
    {
      typeArg := None;
      mValue := Empty;
    }

    /**
     * `BasicPropertyType<T>(T val)`: stores `val`, tagged `T`.  With
     * `T = std::string` this constructor and the string constructor have the
     * same signature, so that instantiation does not compile.
     */
    constructor (t: TypeTag, val: Any)
      requires t != StringType
      requires val.Type() == Some(t)
      ensures typeArg == Some(t) && mValue == val
      ensures Value(t) == Ok(val)
    {
      typeArg := Some(t);
      mValue := val;
    }

    /**
     * The copy constructor: `setValue(other.value<T>())`.  It throws
     * `bad_any_cast` when `other` no longer holds a `T`.
     */
    static method Copy(other: PropertyValue) returns (r: Result<PropertyValue>)
      requires other.typeArg.Some? && other.typeArg != Some(StringType)
      ensures r.Ok? <==> other.Value(other.typeArg.value).Ok?
      ensures r.Err? ==> r.error == BadAnyCast
      ensures r.Ok? ==> fresh(r.value) && r.value.typeArg == other.typeArg
      ensures r.Ok? ==> r.value.mValue == other.mValue
      ensures r.Ok? ==> r.value.Value(other.typeArg.value) == other.Value(other.typeArg.value)
    {
      var t := other.typeArg.value;
      var v := other.Value(t);
      if v.Err? {
        return Err(v.error);
      }
      var p := new PropertyValue(t, v.value);
      return Ok(p);
    }

    /**
     * `BasicPropertyType<T>(std::string val)`: stores the parse of `s` as a
     * `T`; throws `bad_lexical_cast` when `s` is not a lexical form of `T`.
     */
    static method FromString(lex: Lexical, t: TypeTag, s: string) returns (r: Result<PropertyValue>)
      requires t != StringType
      ensures r.Ok? <==> Accepts(lex, t, s)
      ensures r.Err? ==> r.error == BadLexicalCast
      ensures r.Ok? ==> fresh(r.value) && r.value.typeArg == Some(t)
      ensures r.Ok? ==> r.value.Value(t) == LexicalCast(lex, t, s)
    {
      var v := LexicalCast(lex, t, s);
      if v.Err? {
        return Err(v.error);
      }
      var p := new PropertyValue(t, v.value);
      return Ok(p);
    }

    /**
     * Copy assignment: `setValue(other.value<T>()); return *this;`.  When
     * `other` no longer holds a `T` the cast throws before anything is
     * stored, so this object is left as it was.
     */
    method Assign(other: PropertyValue) returns (r: Result<PropertyValue>)
      requires typeArg.Some? && typeArg != Some(StringType) && other.typeArg == typeArg
      modifies this
      ensures r.Ok? <==> old(other.mValue).Type() == typeArg
      ensures r.Ok? ==> r.value == this && mValue == old(other.mValue)
      ensures r.Ok? ==> Value(typeArg.value) == Ok(old(other.mValue))
      ensures r.Err? ==> r.error == BadAnyCast && mValue == old(mValue)
    {
      var v := other.Value(typeArg.value);
      if v.Err? {
        return Err(v.error);
      }
      SetValue(v.value);
      return Ok(this);
    }

    /** `setValue`: replaces the held value and its type tag together. */
    method SetValue(val: Any)
      modifies this
      ensures mValue == val
      ensures forall t :: Value(t) == (if val.Type() == Some(t) then Ok(val) else Err(BadAnyCast))
    {
      mValue := val;
    }

    /** `value<T>()`: the held value if it is a `T`, `bad_any_cast` otherwise. */
    function Value(t: TypeTag): (r: Result<Any>)
      reads this
      ensures r.Ok? <==> mValue.Type() == Some(t)
      ensures r.Ok? ==> r.value == mValue
      ensures r.Err? ==> r.error == BadAnyCast
    {
      AnyCast(mValue, t)
    }

    /** `AbstractPropertyType::toString`: always the empty string. */
    function BaseToString(): (r: string)
      ensures r == ""
    {
      ""
    }

    /**
     * The virtual `toString`.  A plain `AbstractPropertyType` answers the
     * empty string; a `BasicPropertyType<T>` formats `value<T>()`, and so
     * throws `bad_any_cast` when it no longer holds a `T`.
     */
    function ToString(lex: Lexical): (r: Result<string>)
      reads this
      ensures typeArg.None? ==> r == Ok("")
      ensures typeArg.Some? ==> (r.Ok? <==> mValue.Type() == typeArg)
      ensures typeArg.Some? && r.Ok? ==> mValue.Type().Some? && r.value == Format(lex, mValue)
      ensures r.Err? ==> r.error == BadAnyCast
    {
      match typeArg
      case None => Ok(BaseToString())
      case Some(t) =>
        match Value(t)
        case Ok(v) => Ok(Format(lex, v))
        case Err(e) => Err(e)
    }
  }

  /**
   * What a caller of the header can rely on: a value set through the base
   * class is recovered with its own type and no other, a later `setValue`
   * with another type takes over the tag, and `toString` changes nothing.
   */
  method SetValueRetagsClient(lex: Lexical, n: int, s: string)
  {
    var p := new PropertyValue(IntType, IntV(n));
    assert p.Value(IntType) == Ok(IntV(n));
    assert p.Value(StringType) == Err(BadAnyCast);
    var text := p.ToString(lex);
    assert text == Ok(lex.formatInt(n));
    p.SetValue(StrV(s));
    assert p.Value(StringType) == Ok(StrV(s));
    assert p.Value(IntType) == Err(BadAnyCast);
    text := p.ToString(lex);
    assert text == Err(BadAnyCast);
    var q := new PropertyValue(IntType, IntV(n + 1));
    var r := q.Assign(p);
    assert r == Err(BadAnyCast) && q.Value(IntType) == Ok(IntV(n + 1));
  }
}
