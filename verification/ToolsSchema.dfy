/** Feedback on tool arguments: the first place, in a fixed order, where a value
    departs from its schema, for the keywords the feedback handles. */
module ToolsSchema {
  import opened Wrappers
  import opened Ordering
  import opened AgentEvidence

  datatype Json =
    | Null
    | Bool(b: bool)
    | Number(n: real)
    | Text(s: string)
    | List(items: seq<Json>)
    | Object(fields: map<string, Json>)

  datatype Kind = ObjectKind | ArrayKind | StringKind | IntegerKind | NumberKind | OtherKind

  /** A property whose schema is not an object is None, and not looked into. */
  datatype Schema = Schema(kind: Kind, properties: map<string, Option<Schema>>, required: seq<string>, closed: bool,
                           items: Option<Schema>, minimum: Option<real>, maximum: Option<real>, allowed: Option<seq<Json>>)

  datatype Fault =
    NotObject | Missing | UnknownField | NotArray | NotString | NotNumber | NotInteger | TooSmall | TooLarge | NotAllowed

  /** Steps below "arguments". */
  datatype Issue = Issue(at: seq<Step>, fault: Fault)

  const INT64_END := 9223372036854775808.0

  /** Whole, and within the range of the conversion it is checked with. */
  predicate Whole(n: real) { n == n.Floor as real && -INT64_END <= n < INT64_END }

  // ---------------------------------------------------------------- conformance

  /** What a value must be, said without any order. */
  predicate Conforms(s: Schema, v: Json)
    decreases s
  {
    && (match s.kind
        case ObjectKind =>
          && v.Object? && (forall k | k in s.required :: k in v.fields)
          && (s.closed ==> v.fields.Keys <= s.properties.Keys)
          && (forall k | k in s.properties && k in v.fields && s.properties[k].Some? ::
                Conforms(s.properties[k].value, v.fields[k]))
        case ArrayKind =>
          v.List? && (s.items.Some? ==> forall i | 0 <= i < |v.items| :: Conforms(s.items.value, v.items[i]))
        case _ => Plain(s, v))
    && (s.allowed.Some? ==> v in s.allowed.value)
  }

  predicate Plain(s: Schema, v: Json) {
    match s.kind
    case StringKind => v.Text?
    case IntegerKind => v.Number? && Whole(v.n) && Between(s, v.n)
    case NumberKind => v.Number? && Between(s, v.n)
    case _ => true
  }

  predicate Between(s: Schema, n: real) {
    (s.minimum.Some? ==> s.minimum.value <= n) && (s.maximum.Some? ==> n <= s.maximum.value)
  }

  // ---------------------------------------------------------------- the first issue

  function Below(step: Step, found: Option<Issue>): Option<Issue> {
    if found.Some? then Some(found.value.(at := [step] + found.value.at)) else None
  }

  function FirstMissing(required: seq<string>, fields: map<string, Json>): Option<string> {
    if required == [] then None
    else if required[0] !in fields then Some(required[0])
    else FirstMissing(required[1..], fields)
  }

  function PlainIssue(s: Schema, v: Json): Option<Issue> {
    match s.kind
    case StringKind => if v.Text? then None else Some(Issue([], NotString))
    case IntegerKind | NumberKind =>
      if !v.Number? then Some(Issue([], NotNumber))
      else if s.kind.IntegerKind? && !Whole(v.n) then Some(Issue([], NotInteger))
      else if s.minimum.Some? && v.n < s.minimum.value then Some(Issue([], TooSmall))
      else if s.maximum.Some? && v.n > s.maximum.value then Some(Issue([], TooLarge))
      else None
    case _ => None
  }

  ghost function Located(s: Schema, v: Json): Option<Issue>
    decreases s, 1, 0
  {
    var inside := match s.kind
      case ObjectKind => LocatedInObject(s, v)
      case ArrayKind =>
        if !v.List? then Some(Issue([], NotArray))
        else if s.items.Some? then LocatedAmong(s.items.value, v.items, 0)
        else None
      case _ => PlainIssue(s, v);
    if inside.Some? then inside
    else if s.allowed.Some? && v !in s.allowed.value then Some(Issue([], NotAllowed))
    else None
  }

  ghost function LocatedInObject(s: Schema, v: Json): Option<Issue>
    decreases s, 0, |s.properties| + 1
  {
    if !v.Object? then Some(Issue([], NotObject))
    else if FirstMissing(s.required, v.fields).Some? then Some(Issue([Field(FirstMissing(s.required, v.fields).value)], Missing))
    else if s.closed && !(v.fields.Keys <= s.properties.Keys) then Some(Issue([], UnknownField))
    else LocatedIn(s, v.fields, Sorted(s))
  }

  ghost function Sorted(s: Schema): (keys: seq<string>)
    ensures |keys| == |s.properties|
  {
    EnumerationSize(Enumeration(s.properties.Keys), s.properties.Keys);
    Enumeration(s.properties.Keys)
  }

  lemma {:induction false} EnumerationSize(keys: seq<string>, members: set<string>)
    requires Elements(keys) == members && Distinct(keys)
    ensures |keys| == |members|
  {
    if keys != [] {
      assert keys == [keys[0]] + keys[1..];
      assert keys[0] !in Elements(keys[1..]);
      assert Elements(keys[1..]) == members - {keys[0]};
      EnumerationSize(keys[1..], members - {keys[0]});
    }
  }

  ghost function LocatedIn(s: Schema, fields: map<string, Json>, keys: seq<string>): Option<Issue>
    decreases s, 0, |keys|
  {
    if keys == [] then None
    else
      var k := keys[0];
      var here := if k in fields && k in s.properties && s.properties[k].Some?
                  then Below(Field(k), Located(s.properties[k].value, fields[k])) else None;
      if here.Some? then here else LocatedIn(s, fields, keys[1..])
  }

  ghost function LocatedAmong(item: Schema, items: seq<Json>, i: nat): Option<Issue>
    requires i <= |items|
    decreases item, 2, |items| - i
  {
    if i == |items| then None
    else
      var here := Below(Index(i), Located(item, items[i]));
      if here.Some? then here else LocatedAmong(item, items, i + 1)
  }

  // ---------------------------------------------------------------- exactness

  lemma {:induction false} NothingMissing(required: seq<string>, fields: map<string, Json>)
    ensures FirstMissing(required, fields).None? <==> forall k | k in required :: k in fields
    ensures FirstMissing(required, fields).Some? ==>
              FirstMissing(required, fields).value in required && FirstMissing(required, fields).value !in fields
  {
    if required != [] {
      assert required == [required[0]] + required[1..];
      NothingMissing(required[1..], fields);
    }
  }

  /** No issue is found exactly when the value conforms. */
  lemma {:induction false} FeedbackIsExact(s: Schema, v: Json)
    ensures Located(s, v).None? <==> Conforms(s, v)
    decreases s, 1, 0
  {
    match s.kind
    case ObjectKind =>
      if v.Object? {
        NothingMissing(s.required, v.fields);
        ExactIn(s, v.fields, Sorted(s));
        forall k ensures k in s.properties <==> k in Sorted(s) {
          assert k in Sorted(s) <==> k in Elements(Sorted(s));
        }
      }
    case ArrayKind =>
      if v.List? && s.items.Some? { ExactAmong(s.items.value, v.items, 0); }
    case _ =>
  }

  lemma {:induction false} ExactIn(s: Schema, fields: map<string, Json>, keys: seq<string>)
    ensures LocatedIn(s, fields, keys).None? <==>
            forall k | k in keys && k in fields && k in s.properties && s.properties[k].Some? ::
              Conforms(s.properties[k].value, fields[k])
    decreases s, 0, |keys|
  {
    if keys != [] {
      var k := keys[0];
      assert keys == [k] + keys[1..];
      if k in fields && k in s.properties && s.properties[k].Some? { FeedbackIsExact(s.properties[k].value, fields[k]); }
      ExactIn(s, fields, keys[1..]);
    }
  }

  lemma {:induction false} ExactAmong(item: Schema, items: seq<Json>, i: nat)
    requires i <= |items|
    ensures LocatedAmong(item, items, i).None? <==> forall k | i <= k < |items| :: Conforms(item, items[k])
    decreases item, 2, |items| - i
  {
    if i < |items| {
      FeedbackIsExact(item, items[i]);
      ExactAmong(item, items, i + 1);
    }
  }

  /** The fault a value itself has, whatever is inside it. */
  predicate HasFault(s: Schema, v: Json, f: Fault) {
    match f
    case NotObject => s.kind.ObjectKind? && !v.Object?
    case UnknownField => s.kind.ObjectKind? && v.Object? && s.closed && exists k :: k in v.fields && k !in s.properties
    case NotArray => s.kind.ArrayKind? && !v.List?
    case NotString => s.kind.StringKind? && !v.Text?
    case NotNumber => (s.kind.IntegerKind? || s.kind.NumberKind?) && !v.Number?
    case NotInteger => s.kind.IntegerKind? && v.Number? && !Whole(v.n)
    case TooSmall => (s.kind.IntegerKind? || s.kind.NumberKind?) && v.Number? && s.minimum.Some? && v.n < s.minimum.value
    case TooLarge => (s.kind.IntegerKind? || s.kind.NumberKind?) && v.Number? && s.maximum.Some? && v.n > s.maximum.value
    case NotAllowed => s.allowed.Some? && v !in s.allowed.value
    case Missing => false
  }

  /** The path leads, through schema and value together, to a value with that very
      fault, or to a required field that is absent. */
  predicate Points(s: Schema, v: Json, at: seq<Step>, f: Fault)
    decreases |at|
  {
    if at == [] then HasFault(s, v, f)
    else if f == Missing && |at| == 1 then
      s.kind.ObjectKind? && v.Object? && at[0].Field? && at[0].name in s.required && at[0].name !in v.fields
    else
      match at[0]
      case Field(k) =>
        && s.kind.ObjectKind? && v.Object? && k in v.fields && k in s.properties && s.properties[k].Some?
        && Points(s.properties[k].value, v.fields[k], at[1..], f)
      case Index(i) =>
        s.kind.ArrayKind? && v.List? && s.items.Some? && i < |v.items| && Points(s.items.value, v.items[i], at[1..], f)
  }

  /** Whatever is reported is there. */
  lemma {:induction false} FeedbackPoints(s: Schema, v: Json)
    requires Located(s, v).Some?
    ensures Points(s, v, Located(s, v).value.at, Located(s, v).value.fault)
    ensures Located(s, v).value.fault == Missing ==> Located(s, v).value.at != []
    decreases s, 1, 0
  {
    match s.kind
    case ObjectKind =>
      if v.Object? {
        NothingMissing(s.required, v.fields);
        if FirstMissing(s.required, v.fields).None? && LocatedIn(s, v.fields, Sorted(s)).Some? { PointsIn(s, v, Sorted(s)); }
      }
    case ArrayKind =>
      if v.List? && s.items.Some? && LocatedAmong(s.items.value, v.items, 0).Some? { PointsAmong(s, v, 0); }
    case _ =>
  }

  lemma PointsBelow(s: Schema, v: Json, step: Step, child: Schema, inner: Json, found: Issue)
    requires Points(child, inner, found.at, found.fault) && (found.fault == Missing ==> found.at != [])
    requires match step
      case Field(k) =>
        && s.kind.ObjectKind? && v.Object? && k in v.fields && k in s.properties
        && s.properties[k] == Some(child) && inner == v.fields[k]
      case Index(i) => s.kind.ArrayKind? && v.List? && s.items == Some(child) && i < |v.items| && inner == v.items[i]
    ensures Points(s, v, [step] + found.at, found.fault)
  {
    assert ([step] + found.at)[1..] == found.at;
  }

  lemma {:induction false} PointsIn(s: Schema, v: Json, keys: seq<string>)
    requires s.kind.ObjectKind? && v.Object? && LocatedIn(s, v.fields, keys).Some?
    ensures var found := LocatedIn(s, v.fields, keys).value;
      found.at != [] && Points(s, v, found.at, found.fault)
    decreases s, 0, |keys|
  {
    var k := keys[0];
    if k in v.fields && k in s.properties && s.properties[k].Some? && Located(s.properties[k].value, v.fields[k]).Some? {
      var child := s.properties[k].value;
      FeedbackPoints(child, v.fields[k]);
      PointsBelow(s, v, Field(k), child, v.fields[k], Located(child, v.fields[k]).value);
    } else {
      PointsIn(s, v, keys[1..]);
    }
  }

  lemma {:induction false} PointsAmong(s: Schema, v: Json, i: nat)
    requires s.kind.ArrayKind? && v.List? && s.items.Some? && i <= |v.items|
    requires LocatedAmong(s.items.value, v.items, i).Some?
    ensures var found := LocatedAmong(s.items.value, v.items, i).value;
      found.at != [] && Points(s, v, found.at, found.fault)
    decreases s, 0, |v.items| - i
  {
    var item := s.items.value;
    if Located(item, v.items[i]).Some? {
      FeedbackPoints(item, v.items[i]);
      PointsBelow(s, v, Index(i), item, v.items[i], Located(item, v.items[i]).value);
    } else {
      PointsAmong(s, v, i + 1);
    }
  }

  // ---------------------------------------------------------------- the search

  /** The search itself, its keys sorted and its maps walked in any order. */
  method LocateSchemaIssue(s: Schema, v: Json) returns (issue: Option<Issue>)
    ensures issue == Located(s, v)
    decreases s, 2
  {
    issue := None;
    match s.kind {
      case ObjectKind => issue := SearchObject(s, v);
      case ArrayKind =>
        if !v.List? { return Some(Issue([], NotArray)); }
        if s.items.Some? {
          for i := 0 to |v.items|
            invariant LocatedAmong(s.items.value, v.items, 0) == LocatedAmong(s.items.value, v.items, i)
          {
            var found := LocateSchemaIssue(s.items.value, v.items[i]);
            if found.Some? { return Below(Index(i), found); }
          }
        }
      case _ => issue := PlainIssue(s, v);
    }
    if issue.Some? { return; }
    if s.allowed.Some? {
      var found := false;
      for i := 0 to |s.allowed.value|
        invariant found <==> v in s.allowed.value[..i]
      {
        if s.allowed.value[i] == v { found := true; }
      }
      assert s.allowed.value[..|s.allowed.value|] == s.allowed.value;
      if !found { issue := Some(Issue([], NotAllowed)); }
    }
  }

  method SearchObject(s: Schema, v: Json) returns (issue: Option<Issue>)
    requires s.kind.ObjectKind?
    ensures issue == LocatedInObject(s, v)
    decreases s, 1
  {
    if !v.Object? { return Some(Issue([], NotObject)); }
    for i := 0 to |s.required|
      invariant FirstMissing(s.required, v.fields) == FirstMissing(s.required[i..], v.fields)
    {
      if s.required[i] !in v.fields { return Some(Issue([Field(s.required[i])], Missing)); }
    }
    if s.closed {
      var todo := v.fields.Keys;
      while todo != {}
        invariant todo <= v.fields.Keys && v.fields.Keys - todo <= s.properties.Keys
        decreases |todo|
      {
        var key :| key in todo;
        if key !in s.properties { return Some(Issue([], UnknownField)); }
        todo := todo - {key};
      }
    }
    issue := SearchProperties(s, v.fields);
  }

  method SearchProperties(s: Schema, fields: map<string, Json>) returns (issue: Option<Issue>)
    ensures issue == LocatedIn(s, fields, Sorted(s))
    decreases s, 0
  {
    var keys := SortedMembers(s.properties.Keys);
    for i := 0 to |keys|
      invariant LocatedIn(s, fields, keys) == LocatedIn(s, fields, keys[i..])
    {
      var key := keys[i];
      if key in fields && key in s.properties && s.properties[key].Some? {
        var found := LocateSchemaIssue(s.properties[key].value, fields[key]);
        if found.Some? { return Below(Field(key), found); }
      }
    }
    issue := None;
  }
}
