/** The JSON-schema subset of tools/schema.py and the minimal-instance generator of llama/mock_server.py. */
module Schema {
  import opened Prelude

  datatype Json =
    | Null
    | Bool(b: bool)
    | Int(i: int)
    | Float(r: real)
    | Str(s: string)
    | Arr(items: seq<Json>)
    | Obj(fields: map<string, Json>)

  datatype TypeName = ObjectT | ArrayT | StringT | IntegerT | NumberT | BooleanT | NullT | UnknownT

  /** A bound keeps the Python type it was written with: an int or a float. */
  datatype Bound = Whole(i: int) | Fraction(r: real) {
    function Value(): real {
      if Whole? then i as real else r
    }

    function ToJson(): Json {
      if Whole? then Int(i) else Float(r)
    }
  }

  /** One schema dict; None stands for an absent key. `items` is a schema dict when present. */
  datatype Schema = Schema(
    typ: Option<TypeName>,
    enum: Option<seq<Json>>,
    properties: map<string, Schema>,
    required: seq<string>,
    closed: bool,            // additionalProperties is False
    items: Option<Schema>,
    minimum: Option<Bound>,
    maximum: Option<Bound>,
    minLength: Option<int>,
    maxLength: Option<int>)

  // ---- Python's == on JSON values: booleans and numbers compare by value ----

  predicate IsNumeric(x: Json) {
    x.Bool? || x.Int? || x.Float?
  }

  function NumberOf(x: Json): real {
    match x
    case Bool(b) => if b then 1.0 else 0.0
    case Int(i) => i as real
    case Float(r) => r
    case _ => 0.0
  }

  predicate PyEqual(x: Json, y: Json)
    decreases x
  {
    if IsNumeric(x) && IsNumeric(y) then NumberOf(x) == NumberOf(y)
    else match (x, y)
      case (Null, Null) => true
      case (Str(s), Str(t)) => s == t
      case (Arr(xs), Arr(ys)) => |xs| == |ys| && forall i | 0 <= i < |xs| :: PyEqual(xs[i], ys[i])
      case (Obj(xm), Obj(ym)) => xm.Keys == ym.Keys && forall k | k in xm :: PyEqual(xm[k], ym[k])
      case _ => false
  }

  lemma {:induction false} PyEqualSelf(x: Json)
    ensures PyEqual(x, x)
  {
    match x {
      case Arr(xs) => forall i | 0 <= i < |xs| ensures PyEqual(xs[i], xs[i]) { PyEqualSelf(xs[i]); }
      case Obj(m) => forall k | k in m ensures PyEqual(m[k], m[k]) { PyEqualSelf(m[k]); }
      case _ =>
    }
  }

  lemma {:induction false} PyEqualSymmetric(x: Json, y: Json)
    ensures PyEqual(x, y) == PyEqual(y, x)
    decreases x
  {
    match (x, y) {
      case (Arr(xs), Arr(ys)) =>
        if |xs| == |ys| {
          forall i | 0 <= i < |xs| ensures PyEqual(xs[i], ys[i]) == PyEqual(ys[i], xs[i]) {
            PyEqualSymmetric(xs[i], ys[i]);
          }
        }
      case (Obj(xm), Obj(ym)) =>
        if xm.Keys == ym.Keys {
          forall k | k in xm ensures PyEqual(xm[k], ym[k]) == PyEqual(ym[k], xm[k]) {
            PyEqualSymmetric(xm[k], ym[k]);
          }
        }
      case _ =>
    }
  }

  /** As in Python, True equals 1 and 1 equals 1.0. */
  lemma EqualAcrossTypes()
    ensures PyEqual(Bool(true), Int(1)) && PyEqual(Int(1), Float(1.0)) && PyEqual(Float(0.0), Bool(false))
    ensures !PyEqual(Bool(true), Int(2)) && !PyEqual(Int(1), Str("1")) && !PyEqual(Null, Bool(false))
  {
  }

  /** Lists are equal element by element. */
  lemma ListsByElement(x: Json, y: Json)
    ensures PyEqual(Arr([x]), Arr([y])) <==> PyEqual(x, y)
    ensures !PyEqual(Arr([x]), Arr([]))
  {
    assert [x][0] == x && [y][0] == y;
  }

  // ---- the declarative meaning ----

  predicate HasType(x: Json, t: TypeName) {
    match t
    case ObjectT => x.Obj?
    case ArrayT => x.Arr?
    case StringT => x.Str?
    case IntegerT => x.Int?
    case NumberT => x.Int? || x.Float?
    case BooleanT => x.Bool?
    case NullT => x.Null?
    case UnknownT => true
  }

  /** A boolean is no integer and no number, and 1.0 is no integer. */
  lemma TypesApart()
    ensures !HasType(Bool(true), IntegerT) && !HasType(Bool(true), NumberT) && HasType(Bool(true), BooleanT)
    ensures HasType(Int(1), IntegerT) && HasType(Int(1), NumberT) && HasType(Float(1.0), NumberT) && !HasType(Float(1.0), IntegerT)
    ensures HasType(Null, UnknownT) && !HasType(Null, StringT) && !HasType(Str(""), NullT)
  {
  }

  predicate InEnum(x: Json, values: seq<Json>) {
    exists i | 0 <= i < |values| :: PyEqual(x, values[i])
  }

  predicate WithinBounds(x: Json, s: Schema) {
    && (s.minimum.Some? ==> NumberOf(x) >= s.minimum.value.Value())
    && (s.maximum.Some? ==> NumberOf(x) <= s.maximum.value.Value())
  }

  predicate WithinLengths(text: string, s: Schema) {
    && (s.minLength.Some? ==> |text| >= s.minLength.value)
    && (s.maxLength.Some? ==> |text| <= s.maxLength.value)
  }

  /** The instance meets the schema: a value is judged by its type first, then by its type's own keywords. */
  predicate Satisfies(x: Json, s: Schema)
    decreases s, 1
  {
    && (s.typ.Some? ==> HasType(x, s.typ.value))
    && (s.enum.Some? ==> InEnum(x, s.enum.value))
    && MeetsKeywords(x, s)
  }

  predicate MeetsKeywords(x: Json, s: Schema)
    decreases s, 0
  {
    match (s.typ, x)
    case (Some(ObjectT), Obj(fields)) =>
      && (forall i | 0 <= i < |s.required| :: s.required[i] in fields)
      && (s.closed ==> fields.Keys <= s.properties.Keys)
      && (forall k | k in s.properties && k in fields :: Satisfies(fields[k], s.properties[k]))
    case (Some(ArrayT), Arr(items)) =>
      s.items.Some? ==> forall i | 0 <= i < |items| :: Satisfies(items[i], s.items.value)
    case (Some(IntegerT), Int(_)) => WithinBounds(x, s)
    case (Some(NumberT), Int(_)) => WithinBounds(x, s)
    case (Some(NumberT), Float(_)) => WithinBounds(x, s)
    case (Some(StringT), Str(text)) => WithinLengths(text, s)
    case _ => true
  }

  // ---- validate: collects every error ----

  datatype Step = Key(name: string) | Index(i: nat)
  datatype Problem = WrongType | NotInEnum | Missing(name: string) | Unexpected(name: string)
                   | BelowMinimum | AboveMaximum | TooShort | TooLong
  datatype Error = Error(path: seq<Step>, problem: Problem)

  /** What is wrong with the value itself: its type, or else any of the rest. */
  predicate LocalFault(x: Json, s: Schema, p: Problem) {
    if s.typ.Some? && !HasType(x, s.typ.value) then p.WrongType?
    else
      match p
      case WrongType => false
      case NotInEnum => s.enum.Some? && !InEnum(x, s.enum.value)
      case Missing(name) => s.typ == Some(ObjectT) && name in s.required && name !in x.fields
      case Unexpected(name) => s.typ == Some(ObjectT) && s.closed && name in x.fields && name !in s.properties
      case BelowMinimum => s.typ in {Some(IntegerT), Some(NumberT)} && s.minimum.Some? && NumberOf(x) < s.minimum.value.Value()
      case AboveMaximum => s.typ in {Some(IntegerT), Some(NumberT)} && s.maximum.Some? && NumberOf(x) > s.maximum.value.Value()
      case TooShort => s.typ == Some(StringT) && s.minLength.Some? && |x.s| < s.minLength.value
      case TooLong => s.typ == Some(StringT) && s.maxLength.Some? && |x.s| > s.maxLength.value
  }

  /** What is wrong at this place inside the value: a known property's value, or an item, against its own schema. */
  predicate Fault(x: Json, s: Schema, at: seq<Step>, p: Problem)
    decreases |at|
  {
    if at == [] then LocalFault(x, s, p)
    else
      match (s.typ, x, at[0])
      case (Some(ObjectT), Obj(fields), Key(k)) =>
        k in s.properties && k in fields && Fault(fields[k], s.properties[k], at[1..], p)
      case (Some(ArrayT), Arr(items), Index(i)) =>
        s.items.Some? && i < |items| && Fault(items[i], s.items.value, at[1..], p)
      case _ => false
  }

  /** The same of an error whose path starts with the path to the value. */
  predicate FaultBelow(x: Json, s: Schema, path: seq<Step>, e: Error) {
    path <= e.path && Fault(x, s, e.path[|path|..], e.problem)
  }

  /** An error in a property among these. */
  predicate PropertyFault(fields: map<string, Json>, s: Schema, among: set<string>, path: seq<Step>, e: Error) {
    && path < e.path && e.path[|path|].Key?
    && var k := e.path[|path|].name;
    && k in among && k in s.properties && k in fields
    && Fault(fields[k], s.properties[k], e.path[|path| + 1..], e.problem)
  }

  /** An error in one of the first n items. */
  predicate ItemFault(items: seq<Json>, s: Schema, n: nat, path: seq<Step>, e: Error)
    requires s.items.Some? && n <= |items|
  {
    && path < e.path && e.path[|path|].Index?
    && var i := e.path[|path|].i;
    && i < n && Fault(items[i], s.items.value, e.path[|path| + 1..], e.problem)
  }

  predicate Here(path: seq<Step>, e: Error) {
    e.path == path
  }

  method MissingErrors(fields: map<string, Json>, required: seq<string>, path: seq<Step>) returns (errors: seq<Error>)
    ensures forall e :: e in errors <==> Here(path, e) && e.problem.Missing? && e.problem.name in required && e.problem.name !in fields
  {
    errors := [];
    for i := 0 to |required|
      invariant forall e :: e in errors <==>
                  Here(path, e) && e.problem.Missing? && e.problem.name in required[..i] && e.problem.name !in fields
    {
      assert required[..i + 1] == required[..i] + [required[i]];
      if required[i] !in fields {
        errors := errors + [Error(path, Missing(required[i]))];
      }
    }
    assert required[..|required|] == required;
  }

  method UnexpectedErrors(fields: map<string, Json>, properties: map<string, Schema>, path: seq<Step>)
    returns (errors: seq<Error>)
    ensures forall e :: e in errors <==>
              Here(path, e) && e.problem.Unexpected? && e.problem.name in fields && e.problem.name !in properties
  {
    errors := [];
    var todo := fields.Keys;
    while todo != {}
      invariant todo <= fields.Keys
      invariant forall e :: e in errors <==>
                  && Here(path, e) && e.problem.Unexpected?
                  && e.problem.name in fields.Keys - todo && e.problem.name !in properties
      decreases todo
    {
      var k :| k in todo;
      if k !in properties {
        errors := errors + [Error(path, Unexpected(k))];
      }
      todo := todo - {k};
    }
  }

  method PropertyErrors(fields: map<string, Json>, s: Schema, path: seq<Step>) returns (errors: seq<Error>)
    ensures forall e :: e in errors <==> PropertyFault(fields, s, s.properties.Keys, path, e)
    decreases s, 0
  {
    errors := [];
    var todo := s.properties.Keys;
    while todo != {}
      invariant todo <= s.properties.Keys
      invariant forall e :: e in errors <==> PropertyFault(fields, s, s.properties.Keys - todo, path, e)
      decreases todo
    {
      var k :| k in todo;
      ghost var done := s.properties.Keys - todo;
      if k in fields {
        var more := Validate(fields[k], s.properties[k], path + [Key(k)]);
        OnePropertyMore(fields, s, done, k, path, errors, more);
        errors := errors + more;
      } else {
        AbsentProperty(fields, s, done, k, path);
      }
      todo := todo - {k};
      assert s.properties.Keys - todo == done + {k};
    }
  }

  lemma OnePropertyMore(fields: map<string, Json>, s: Schema, among: set<string>, k: string, path: seq<Step>,
                        errors: seq<Error>, more: seq<Error>)
    requires k in s.properties && k in fields && k !in among
    requires forall e :: e in errors <==> PropertyFault(fields, s, among, path, e)
    requires forall e :: e in more <==> FaultBelow(fields[k], s.properties[k], path + [Key(k)], e)
    ensures forall e :: e in errors + more <==> PropertyFault(fields, s, among + {k}, path, e)
  {
    forall e: Error ensures e in errors + more <==> PropertyFault(fields, s, among + {k}, path, e) {
      StepBelow(path, Key(k), e.path);
      assert e in errors <==> PropertyFault(fields, s, among, path, e);
      assert e in more <==> FaultBelow(fields[k], s.properties[k], path + [Key(k)], e);
    }
  }

  lemma AbsentProperty(fields: map<string, Json>, s: Schema, among: set<string>, k: string, path: seq<Step>)
    requires k !in fields
    ensures forall e :: PropertyFault(fields, s, among, path, e) <==> PropertyFault(fields, s, among + {k}, path, e)
  {
  }

  lemma StepBelow(path: seq<Step>, step: Step, long: seq<Step>)
    ensures path + [step] <= long <==> path < long && long[|path|] == step
    ensures path + [step] <= long ==> long[|path + [step]|..] == long[|path| + 1..]
  {
    if path + [step] <= long {
      assert long[..|path|] == path && long[|path|] == (path + [step])[|path|];
    }
    if path < long && long[|path|] == step {
      assert long[..|path| + 1] == path + [step];
    }
  }

  method ItemErrors(items: seq<Json>, s: Schema, path: seq<Step>) returns (errors: seq<Error>)
    requires s.items.Some?
    ensures forall e :: e in errors <==> ItemFault(items, s, |items|, path, e)
    decreases s, 0
  {
    errors := [];
    for i := 0 to |items|
      invariant forall e :: e in errors <==> ItemFault(items, s, i, path, e)
    {
      var more := Validate(items[i], s.items.value, path + [Index(i)]);
      OneItemMore(items, s, i, path, errors, more);
      errors := errors + more;
    }
  }

  lemma OneItemMore(items: seq<Json>, s: Schema, i: nat, path: seq<Step>, errors: seq<Error>, more: seq<Error>)
    requires s.items.Some? && i < |items|
    requires forall e :: e in errors <==> ItemFault(items, s, i, path, e)
    requires forall e :: e in more <==> FaultBelow(items[i], s.items.value, path + [Index(i)], e)
    ensures forall e :: e in errors + more <==> ItemFault(items, s, i + 1, path, e)
  {
    forall e: Error ensures e in errors + more <==> ItemFault(items, s, i + 1, path, e) {
      StepBelow(path, Index(i), e.path);
      assert e in errors <==> ItemFault(items, s, i, path, e);
      assert e in more <==> FaultBelow(items[i], s.items.value, path + [Index(i)], e);
    }
  }

  method BoundErrors(x: Json, s: Schema, path: seq<Step>) returns (errors: seq<Error>)
    requires s.typ in {Some(IntegerT), Some(NumberT)} && HasType(x, s.typ.value)
    ensures forall e :: e in errors <==>
              Here(path, e) && (e.problem.BelowMinimum? || e.problem.AboveMaximum?) && LocalFault(x, s, e.problem)
  {
    errors := [];
    if s.minimum.Some? && NumberOf(x) < s.minimum.value.Value() {
      errors := errors + [Error(path, BelowMinimum)];
    }
    if s.maximum.Some? && NumberOf(x) > s.maximum.value.Value() {
      errors := errors + [Error(path, AboveMaximum)];
    }
  }

  method LengthErrors(x: Json, s: Schema, path: seq<Step>) returns (errors: seq<Error>)
    requires s.typ == Some(StringT) && x.Str?
    ensures forall e :: e in errors <==>
              Here(path, e) && (e.problem.TooShort? || e.problem.TooLong?) && LocalFault(x, s, e.problem)
  {
    errors := [];
    if s.minLength.Some? && |x.s| < s.minLength.value {
      errors := errors + [Error(path, TooShort)];
    }
    if s.maxLength.Some? && |x.s| > s.maxLength.value {
      errors := errors + [Error(path, TooLong)];
    }
  }

  /** An error of the object's own keywords, or in one of its known properties. */
  predicate ObjectFault(fields: map<string, Json>, s: Schema, path: seq<Step>, e: Error)
    requires s.typ == Some(ObjectT)
  {
    || (Here(path, e) && (e.problem.Missing? || e.problem.Unexpected?) && LocalFault(Obj(fields), s, e.problem))
    || PropertyFault(fields, s, s.properties.Keys, path, e)
  }

  method ObjectErrors(fields: map<string, Json>, s: Schema, path: seq<Step>) returns (errors: seq<Error>)
    requires s.typ == Some(ObjectT)
    ensures forall e :: e in errors <==> ObjectFault(fields, s, path, e)
    decreases s, 1
  {
    errors := MissingErrors(fields, s.required, path);
    if s.closed {
      var unexpected := UnexpectedErrors(fields, s.properties, path);
      errors := errors + unexpected;
    }
    var inner := PropertyErrors(fields, s, path);
    errors := errors + inner;
  }

  /** An error of the keywords of the instance's own type. */
  predicate KeywordFault(x: Json, s: Schema, path: seq<Step>, e: Error) {
    FaultBelow(x, s, path, e) && !(e.path == path && e.problem in {WrongType, NotInEnum})
  }

  lemma DeeperFault(x: Json, s: Schema, path: seq<Step>, e: Error)
    ensures FaultBelow(x, s, path, e) && e.path != path
       <==> || (s.typ == Some(ObjectT) && x.Obj? && PropertyFault(x.fields, s, s.properties.Keys, path, e))
            || (s.typ == Some(ArrayT) && x.Arr? && s.items.Some? && ItemFault(x.items, s, |x.items|, path, e))
  {
    if path <= e.path && e.path != path {
      var at := e.path[|path|..];
      assert at[0] == e.path[|path|] && at[1..] == e.path[|path| + 1..];
    }
  }

  lemma FaultHere(x: Json, s: Schema, path: seq<Step>, e: Error)
    ensures FaultBelow(x, s, path, e) && e.path == path <==> Here(path, e) && LocalFault(x, s, e.problem)
  {
    assert e.path == path ==> e.path[|path|..] == [];
  }

  /** The keyword checks of the instance's own type. */
  method KeywordErrors(x: Json, s: Schema, path: seq<Step>) returns (errors: seq<Error>)
    requires s.typ.Some? ==> HasType(x, s.typ.value)
    ensures forall e :: e in errors <==> KeywordFault(x, s, path, e)
    decreases s, 2
  {
    errors := [];
    if s.typ == Some(ObjectT) {
      errors := ObjectErrors(x.fields, s, path);
    }
    if s.typ == Some(ArrayT) && s.items.Some? {
      errors := ItemErrors(x.items, s, path);
    }
    if s.typ == Some(IntegerT) || s.typ == Some(NumberT) {
      errors := BoundErrors(x, s, path);
    }
    if s.typ == Some(StringT) {
      errors := LengthErrors(x, s, path);
    }
    forall e: Error ensures e in errors <==> KeywordFault(x, s, path, e) {
      DeeperFault(x, s, path, e);
      FaultHere(x, s, path, e);
    }
  }

  /**
   validate: reports exactly what is wrong, where it is wrong; and nothing exactly when the instance meets the schema.
   */
  method Validate(x: Json, s: Schema, path: seq<Step>) returns (errors: seq<Error>)
    ensures errors == [] <==> Satisfies(x, s)
    ensures forall e :: e in errors <==> FaultBelow(x, s, path, e)
    decreases s, 3
  {
    errors := [];
    if s.typ.Some? && !HasType(x, s.typ.value) {
      errors := [Error(path, WrongType)];
      OnlyWrongType(x, s, path);
      return;
    }
    if s.enum.Some? && !InEnum(x, s.enum.value) {
      errors := [Error(path, NotInEnum)];
    }
    var more := KeywordErrors(x, s, path);
    forall e: Error ensures e in errors + more <==> FaultBelow(x, s, path, e) {
      FaultHere(x, s, path, e);
    }
    errors := errors + more;
    NoFaultIffSatisfied(x, s);
    EmptyIffNoFault(x, s, path, errors);
  }

  lemma OnlyWrongType(x: Json, s: Schema, path: seq<Step>)
    requires s.typ.Some? && !HasType(x, s.typ.value)
    ensures forall e :: e in [Error(path, WrongType)] <==> FaultBelow(x, s, path, e)
  {
    forall e: Error ensures e in [Error(path, WrongType)] <==> FaultBelow(x, s, path, e) {
      FaultHere(x, s, path, e);
      DeeperFault(x, s, path, e);
    }
  }

  ghost predicate Faultless(x: Json, s: Schema) {
    forall at, p :: !Fault(x, s, at, p)
  }

  lemma EmptyIffNoFault(x: Json, s: Schema, path: seq<Step>, errors: seq<Error>)
    requires forall e :: e in errors <==> FaultBelow(x, s, path, e)
    ensures errors == [] <==> Faultless(x, s)
  {
    if errors != [] {
      assert errors[0] in errors;
    }
    forall at, p | Fault(x, s, at, p) ensures errors != [] {
      assert (path + at)[|path|..] == at;
      assert Error(path + at, p) in errors;
    }
  }

  lemma LocalIffSatisfied(x: Json, s: Schema)
    ensures (forall p :: !LocalFault(x, s, p))
       <==> && (s.typ.Some? ==> HasType(x, s.typ.value)) && (s.enum.Some? ==> InEnum(x, s.enum.value))
            && match (s.typ, x)
               case (Some(ObjectT), Obj(fields)) =>
                 (forall i | 0 <= i < |s.required| :: s.required[i] in fields) && (s.closed ==> fields.Keys <= s.properties.Keys)
               case (Some(IntegerT), Int(_)) => WithinBounds(x, s)
               case (Some(NumberT), Int(_)) => WithinBounds(x, s)
               case (Some(NumberT), Float(_)) => WithinBounds(x, s)
               case (Some(StringT), Str(text)) => WithinLengths(text, s)
               case _ => true
  {
    if (forall p :: !LocalFault(x, s, p)) {
      assert !LocalFault(x, s, WrongType) && !LocalFault(x, s, NotInEnum);
      assert !LocalFault(x, s, BelowMinimum) && !LocalFault(x, s, AboveMaximum);
      assert !LocalFault(x, s, TooShort) && !LocalFault(x, s, TooLong);
      assert forall i | 0 <= i < |s.required| :: !LocalFault(x, s, Missing(s.required[i]));
    }
    if s.typ == Some(ObjectT) && x.Obj? && s.closed && !(x.fields.Keys <= s.properties.Keys) {
      var k :| k in x.fields && k !in s.properties;
      assert LocalFault(x, s, Unexpected(k));
    }
  }

  /** A fault inside a part is a fault of the whole, one step further. */
  lemma FaultOfPart(x: Json, s: Schema, step: Step, at: seq<Step>, p: Problem)
    ensures Fault(x, s, [step] + at, p)
       <==> || (s.typ == Some(ObjectT) && x.Obj? && step.Key? && step.name in s.properties && step.name in x.fields
                && Fault(x.fields[step.name], s.properties[step.name], at, p))
            || (s.typ == Some(ArrayT) && x.Arr? && step.Index? && s.items.Some? && step.i < |x.items|
                && Fault(x.items[step.i], s.items.value, at, p))
  {
    assert ([step] + at)[1..] == at;
  }

  /** No fault in any part. */
  ghost predicate PartsFaultless(x: Json, s: Schema) {
    match (s.typ, x)
    case (Some(ObjectT), Obj(fields)) => forall k | k in s.properties && k in fields :: Faultless(fields[k], s.properties[k])
    case (Some(ArrayT), Arr(items)) => s.items.Some? ==> forall i | 0 <= i < |items| :: Faultless(items[i], s.items.value)
    case _ => true
  }

  lemma FaultlessIff(x: Json, s: Schema)
    ensures Faultless(x, s) <==> PartsFaultless(x, s) && forall p :: !LocalFault(x, s, p)
  {
    assert forall p :: Fault(x, s, [], p) == LocalFault(x, s, p);
    if Faultless(x, s) {
      if s.typ == Some(ObjectT) && x.Obj? {
        forall k, at, p | k in s.properties && k in x.fields ensures !Fault(x.fields[k], s.properties[k], at, p) {
          FaultOfPart(x, s, Key(k), at, p);
        }
      }
      if s.typ == Some(ArrayT) && x.Arr? && s.items.Some? {
        forall i: nat, at, p | i < |x.items| ensures !Fault(x.items[i], s.items.value, at, p) {
          FaultOfPart(x, s, Index(i), at, p);
        }
      }
    }
    if PartsFaultless(x, s) && (forall p :: !LocalFault(x, s, p)) {
      forall at, p ensures !Fault(x, s, at, p) {
        if at != [] {
          assert at == [at[0]] + at[1..];
          FaultOfPart(x, s, at[0], at[1..], p);
        }
      }
    }
  }

  /** A value has no fault anywhere exactly when it meets its schema. */
  lemma {:induction false} NoFaultIffSatisfied(x: Json, s: Schema)
    ensures Faultless(x, s) <==> Satisfies(x, s)
    decreases s
  {
    LocalIffSatisfied(x, s);
    FaultlessIff(x, s);
    if s.typ == Some(ObjectT) && x.Obj? {
      forall k | k in s.properties && k in x.fields
        ensures Faultless(x.fields[k], s.properties[k]) <==> Satisfies(x.fields[k], s.properties[k])
      {
        NoFaultIffSatisfied(x.fields[k], s.properties[k]);
      }
    }
    if s.typ == Some(ArrayT) && x.Arr? && s.items.Some? {
      forall i | 0 <= i < |x.items| ensures Faultless(x.items[i], s.items.value) <==> Satisfies(x.items[i], s.items.value) {
        NoFaultIffSatisfied(x.items[i], s.items.value);
      }
    }
  }

  // ---- the minimal-instance generator ----

  const MOCK := "mock"

  /** instance_for_schema */
  function Instance(s: Schema): Json
    decreases s
  {
    if s.enum.Some? && s.enum.value != [] then s.enum.value[0]
    else if s.typ.None? then Str(MOCK)
    else match s.typ.value
      case ObjectT => Obj(map k | k in s.properties :: Instance(s.properties[k]))
      case ArrayT => Arr(if s.items.Some? then [Instance(s.items.value)] else [])
      case StringT => Str(MOCK)
      case IntegerT => if s.minimum.Some? then s.minimum.value.ToJson() else Int(0)
      case NumberT => if s.minimum.Some? then s.minimum.value.ToJson() else Int(0)
      case BooleanT => Bool(false)
      case NullT => Null
      case UnknownT => Str(MOCK)
  }

  /** What the generator needs of a schema, read off the schema itself. */
  predicate Generatable(s: Schema)
    decreases s
  {
    if s.enum.Some? then
      s.enum.value != []
      && (var first := s.enum.value[0]; (s.typ.Some? ==> HasType(first, s.typ.value)) && MeetsKeywords(first, s))
    else if s.typ.None? then true
    else match s.typ.value
      case ObjectT =>
        && (forall i | 0 <= i < |s.required| :: s.required[i] in s.properties)
        && (forall k | k in s.properties :: Generatable(s.properties[k]))
      case ArrayT => s.items.Some? ==> Generatable(s.items.value)
      case StringT => (s.minLength.Some? ==> s.minLength.value <= 4) && (s.maxLength.Some? ==> 4 <= s.maxLength.value)
      case IntegerT => NumericStart(s, true)
      case NumberT => NumericStart(s, false)
      case BooleanT => true
      case NullT => true
      case UnknownT => true
  }

  /** The minimum (or 0) has the right type and does not exceed the maximum. */
  predicate NumericStart(s: Schema, integral: bool) {
    var start := if s.minimum.Some? then s.minimum.value else Whole(0);
    && (integral ==> start.Whole?)
    && (s.maximum.Some? ==> start.Value() <= s.maximum.value.Value())
  }

  /** The generated instance is valid exactly for the schemas the generator supports. */
  lemma {:induction false} InstanceValidIffGeneratable(s: Schema)
    ensures Satisfies(Instance(s), s) <==> Generatable(s)
    decreases s
  {
    if s.enum.Some? {
      if s.enum.value != [] {
        PyEqualSelf(s.enum.value[0]);
      }
    } else if s.typ.Some? {
      match s.typ.value {
        case ObjectT =>
          forall k | k in s.properties
            ensures Satisfies(Instance(s.properties[k]), s.properties[k]) <==> Generatable(s.properties[k])
          {
            InstanceValidIffGeneratable(s.properties[k]);
          }
        case ArrayT =>
          if s.items.Some? {
            InstanceValidIffGeneratable(s.items.value);
            var items := [Instance(s.items.value)];
            assert Instance(s) == Arr(items) && items[0] == Instance(s.items.value);
            assert MeetsKeywords(Arr(items), s) <==> Satisfies(items[0], s.items.value);
          }
        case _ =>
      }
    }
  }
}
