/**
 Structured fields (`D`) and the field encoder `D.AddTo`: a closed, ordered
 type switch over the field's value that selects one method of the
 structured encoder. The encoder itself is external; what the model keeps is
 the sequence of calls `AddTo` makes on it.
 */
module Fields {
  import opened Values

  /** One named log field, Go's `D{Key, Value}`. */
  datatype Field = Field(key: string, value: Value)

  /** `KV(key, value)`: builds the field. */
  function KV(key: string, value: Value): (d: Field)
    ensures d.key == key && d.value == value
  {
    Field(key, value)
  }

  /** The methods of the structured encoder that `AddTo` calls. */
  datatype Method =
    | AddBool | AddComplex128 | AddComplex64 | AddFloat64 | AddFloat32
    | AddInt | AddInt64 | AddInt32 | AddInt16 | AddInt8
    | AddString
    | AddUint | AddUint64 | AddUint32 | AddUint16 | AddUint8
    | AddByteString | AddUintptr | AddTime | AddDuration | AddReflected

  /** One call on the encoder; `arg` is the argument passed after the key,
      written back as a value. */
  datatype EncoderCall = EncoderCall(op: Method, key: string, arg: Value)

  /** The arms of the type switch. */
  datatype Arm =
    | CaseBool | CaseComplex128 | CaseComplex64 | CaseFloat64 | CaseFloat32
    | CaseInt | CaseInt64 | CaseInt32 | CaseInt16 | CaseInt8
    | CaseString
    | CaseUint | CaseUint64 | CaseUint32 | CaseUint16 | CaseUint8
    | CaseBytes | CaseUintptr
    | CaseTime | CaseXTime | CaseDuration | CaseXDuration
    | CaseError | CaseStringer | CaseDefault

  /** Where each arm stands in the switch; earlier arms are tried first. */
  function Position(a: Arm): nat {
    match a
    case CaseBool => 0
    case CaseComplex128 => 1
    case CaseComplex64 => 2
    case CaseFloat64 => 3
    case CaseFloat32 => 4
    case CaseInt => 5
    case CaseInt64 => 6
    case CaseInt32 => 7
    case CaseInt16 => 8
    case CaseInt8 => 9
    case CaseString => 10
    case CaseUint => 11
    case CaseUint64 => 12
    case CaseUint32 => 13
    case CaseUint16 => 14
    case CaseUint8 => 15
    case CaseBytes => 16
    case CaseUintptr => 17
    case CaseTime => 18
    case CaseXTime => 19
    case CaseDuration => 20
    case CaseXDuration => 21
    case CaseError => 22
    case CaseStringer => 23
    case CaseDefault => 24
  }

  /** The value implements `error`. */
  predicate IsError(v: Value) {
    v.Object? && v.errorText.Some?
  }

  /** The value implements `fmt.Stringer`; `time.Time` and `time.Duration`
      both do. */
  predicate IsStringer(v: Value) {
    v.Time? || v.Duration? || (v.Object? && v.stringText.Some?)
  }

  /** Go's rule for one arm of a type switch: a concrete type matches only a
      value of exactly that type, an interface type matches every value whose
      type implements it, and `default` matches everything. */
  predicate Satisfies(v: Value, a: Arm) {
    match a
    case CaseBool => v.Bool?
    case CaseComplex128 => v.Complex128?
    case CaseComplex64 => v.Complex64?
    case CaseFloat64 => v.Float64?
    case CaseFloat32 => v.Float32?
    case CaseInt => v.Int?
    case CaseInt64 => v.Int64?
    case CaseInt32 => v.Int32?
    case CaseInt16 => v.Int16?
    case CaseInt8 => v.Int8?
    case CaseString => v.Str?
    case CaseUint => v.Uint?
    case CaseUint64 => v.Uint64?
    case CaseUint32 => v.Uint32?
    case CaseUint16 => v.Uint16?
    case CaseUint8 => v.Uint8?
    case CaseBytes => v.Bytes?
    case CaseUintptr => v.Uintptr?
    case CaseTime => v.Time?
    case CaseXTime => v.XTime?
    case CaseDuration => v.Duration?
    case CaseXDuration => v.XDuration?
    case CaseError => IsError(v)
    case CaseStringer => IsStringer(v)
    case CaseDefault => true
  }

  /** `a` is the arm a type switch runs for `v`: it matches, and no earlier
      arm does. */
  predicate IsFirstMatch(v: Value, a: Arm) {
    Satisfies(v, a) && forall b :: Satisfies(v, b) ==> Position(a) <= Position(b)
  }

  /** Two different arms never stand at the same place. */
  lemma PositionInjective(a: Arm, b: Arm)
    requires Position(a) == Position(b)
    ensures a == b
  {
  }

  /** The first match of a value is unique. */
  lemma FirstMatchUnique(v: Value, a: Arm, b: Arm)
    requires IsFirstMatch(v, a) && IsFirstMatch(v, b)
    ensures a == b
  {
    PositionInjective(a, b);
  }

  /** The arm the switch selects for `v`; `SelectIsFirstMatch` shows no
      earlier arm matches. */
  function Select(v: Value): (a: Arm)
    ensures a.CaseError? <==> IsError(v)
  {
    match v
    case Bool(_) => CaseBool
    case Complex128(_, _) => CaseComplex128
    case Complex64(_, _) => CaseComplex64
    case Float64(_) => CaseFloat64
    case Float32(_) => CaseFloat32
    case Int(_) => CaseInt
    case Int64(_) => CaseInt64
    case Int32(_) => CaseInt32
    case Int16(_) => CaseInt16
    case Int8(_) => CaseInt8
    case Str(_) => CaseString
    case Uint(_) => CaseUint
    case Uint64(_) => CaseUint64
    case Uint32(_) => CaseUint32
    case Uint16(_) => CaseUint16
    case Uint8(_) => CaseUint8
    case Bytes(_) => CaseBytes
    case Uintptr(_) => CaseUintptr
    case Time(_) => CaseTime
    case XTime(_) => CaseXTime
    case Duration(_) => CaseDuration
    case XDuration(_) => CaseXDuration
    case Object(_, e, s) =>
      if e.Some? then CaseError else if s.Some? then CaseStringer else CaseDefault
    case Nil => CaseDefault
  }

  /** The switch runs the first arm that matches. */
  lemma SelectIsFirstMatch(v: Value)
    ensures IsFirstMatch(v, Select(v))
  {
    var a := Select(v);
    assert Satisfies(v, a);
    forall b | Satisfies(v, b) ensures Position(a) <= Position(b) {
      if v.Object? || v.Nil? {
        assert b.CaseError? || b.CaseStringer? || b.CaseDefault?;
      } else {
        assert b == a || b.CaseStringer? || b.CaseDefault?;
      }
    }
  }

  /** The encoder method each arm calls. */
  function MethodOf(a: Arm): Method {
    match a
    case CaseBool => AddBool
    case CaseComplex128 => AddComplex128
    case CaseComplex64 => AddComplex64
    case CaseFloat64 => AddFloat64
    case CaseFloat32 => AddFloat32
    case CaseInt => AddInt
    case CaseInt64 => AddInt64
    case CaseInt32 => AddInt32
    case CaseInt16 => AddInt16
    case CaseInt8 => AddInt8
    case CaseString => AddString
    case CaseUint => AddUint
    case CaseUint64 => AddUint64
    case CaseUint32 => AddUint32
    case CaseUint16 => AddUint16
    case CaseUint8 => AddUint8
    case CaseBytes => AddByteString
    case CaseUintptr => AddUintptr
    case CaseTime => AddTime
    case CaseXTime => AddTime
    case CaseDuration => AddDuration
    case CaseXDuration => AddDuration
    case CaseError => AddString
    case CaseStringer => AddString
    case CaseDefault => AddReflected
  }

  /** Arms that hand the value to the encoder as it is, with no conversion. */
  predicate PassesValueThrough(a: Arm) {
    !(a.CaseXTime? || a.CaseXDuration? || a.CaseError? || a.CaseStringer?)
  }

  /** The argument the selected arm passes after the key: the project's time
      types converted to the native ones, an `error` as its `Error()` text, any
      other `fmt.Stringer` that is not a native time type as its `String()`
      text, and every other value as it is. */
  function Arg(v: Value): Value {
    match v
    case XTime(sec) => Time(XTimeToTime(sec))
    case XDuration(n) => Duration(n)
    case Object(_, Some(msg), _) => Str(msg)
    case Object(_, None, Some(text)) => Str(text)
    case _ => v
  }

  /** What `Arg` passes, arm by arm. */
  lemma ArgByArm(v: Value)
    ensures PassesValueThrough(Select(v)) ==> Arg(v) == v
    ensures Select(v).CaseXTime? ==> v.XTime? && Arg(v) == Time(XTimeToTime(v.xsec))
    ensures Select(v).CaseXDuration? ==> v.XDuration? && Arg(v) == Duration(v.xnanos)
    ensures Select(v).CaseError? ==> v.Object? && v.errorText.Some? && Arg(v) == Str(v.errorText.value)
    ensures Select(v).CaseStringer? ==> v.Object? && v.stringText.Some? && Arg(v) == Str(v.stringText.value)
  {
  }

  /** `d.AddTo(enc)`: the calls made on the encoder. `reflectErr` is the
      error the encoder's `AddReflected` returns for this value, if any; it
      only matters in the fallback arm. Nothing is returned to the caller. */
  function AddTo(d: Field, reflectErr: Option<string>): (calls: seq<EncoderCall>)
    ensures 1 <= |calls| <= 2 && calls[0].key == d.key
    ensures forall a :: IsFirstMatch(d.value, a) ==> calls[0].op == MethodOf(a)
    ensures forall a :: IsFirstMatch(d.value, a) && PassesValueThrough(a) ==> calls[0].arg == d.value
    ensures IsFirstMatch(d.value, CaseXTime) ==> calls[0].arg == Time(XTimeToTime(d.value.xsec))
    ensures IsFirstMatch(d.value, CaseXDuration) ==> calls[0].arg == Duration(d.value.xnanos)
    ensures IsFirstMatch(d.value, CaseError) ==> calls[0].arg == Str(d.value.errorText.value)
    ensures IsFirstMatch(d.value, CaseStringer) ==> d.value.Object? && calls[0].arg == Str(d.value.stringText.value)
    ensures |calls| == 2 <==> IsFirstMatch(d.value, CaseDefault) && reflectErr.Some?
    ensures |calls| == 2 ==> calls[1] == EncoderCall(AddString, d.key + "Error", Str(reflectErr.value))
  {
    var call := EncoderCall(MethodOf(Select(d.value)), d.key, Arg(d.value));
    var err := if Select(d.value).CaseDefault? then reflectErr else None;
    SelectIsFirstMatch(d.value);
    assert forall a :: IsFirstMatch(d.value, a) ==> a == Select(d.value) by {
      forall a | IsFirstMatch(d.value, a) ensures a == Select(d.value) {
        FirstMatchUnique(d.value, a, Select(d.value));
      }
    }
    ArgByArm(d.value);
    if err.Some? then [call, EncoderCall(AddString, d.key + "Error", Str(err.value))] else [call]
  }

  /** A value that implements `error` is written as its error message,
      whether or not it is also a `fmt.Stringer`. */
  lemma ErrorBeforeStringer(key: string, name: string, msg: string, text: Option<string>, reflectErr: Option<string>)
    ensures AddTo(Field(key, Object(name, Some(msg), text)), reflectErr)
            == [EncoderCall(AddString, key, Str(msg))]
  {
  }

  /** `time.Time` and `time.Duration` are Stringers too, but keep their own
      encoder methods because their arms come first. */
  lemma NativeTimeBeforeStringer(key: string, t: Instant, n: int64, reflectErr: Option<string>)
    ensures IsStringer(Time(t)) && IsStringer(Duration(n))
    ensures AddTo(Field(key, Time(t)), reflectErr) == [EncoderCall(AddTime, key, Time(t))]
    ensures AddTo(Field(key, Duration(n)), reflectErr) == [EncoderCall(AddDuration, key, Duration(n))]
  {
  }

  /** The project's time types are converted to the native ones first. */
  lemma ProjectTimeTypesNormalised(key: string, sec: int64, n: int64, reflectErr: Option<string>)
    ensures AddTo(Field(key, XTime(sec)), reflectErr) == [EncoderCall(AddTime, key, Time(Instant(sec, 0)))]
    ensures AddTo(Field(key, XDuration(n)), reflectErr) == [EncoderCall(AddDuration, key, Duration(n))]
  {
  }

  /** A Stringer that is not an error is written as its `String()` text. */
  lemma StringerAsText(key: string, name: string, text: string, reflectErr: Option<string>)
    ensures AddTo(Field(key, Object(name, None, Some(text))), reflectErr)
            == [EncoderCall(AddString, key, Str(text))]
  {
  }

  /** The fallback arm: exactly the values with no typed arm, encoded
      reflectively, with one `<key>Error` string field when that fails. */
  lemma FallbackTrace(d: Field, reflectErr: Option<string>)
    requires d.value.Nil? || (d.value.Object? && d.value.errorText.None? && d.value.stringText.None?)
    ensures IsFirstMatch(d.value, CaseDefault)
    ensures reflectErr.None? ==> AddTo(d, reflectErr) == [EncoderCall(AddReflected, d.key, d.value)]
    ensures reflectErr.Some? ==> AddTo(d, reflectErr) == [EncoderCall(AddReflected, d.key, d.value),
                                                          EncoderCall(AddString, d.key + "Error", Str(reflectErr.value))]
  {
  }

  /** Any value with a typed arm produces exactly one call, with the field's
      key, and the reflective outcome plays no part. */
  lemma TypedArmSingleCall(d: Field, e1: Option<string>, e2: Option<string>)
    requires !IsFirstMatch(d.value, CaseDefault)
    ensures AddTo(d, e1) == AddTo(d, e2)
    ensures |AddTo(d, e1)| == 1 && AddTo(d, e1)[0].op != AddReflected
  {
  }
}
