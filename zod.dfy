/**
  The part of zod that the configuration schema is built from, as data.

  A `Schema` value is a combinator expression (`z.string().min(1)`,
  `z.object({...}).strict()`, `z.union([...])`, `.refine(...)`), and three
  functions give it meaning:
  - `Valid`: whether a value conforms;
  - `Check`: what zod's parser reports, issue by issue, with the distinction
    zod draws between a result that is merely "dirty" (it has issues, yet its
    value is still handed to refinements and unions) and one that is
    "aborted" (a type mismatch: nothing downstream runs);
  - `Output`: the value a successful parse returns (a non-strict object drops
    the keys its shape does not declare).
  `CheckSound` proves that the issue set is empty exactly when `Valid` holds,
  and `SafeParse` packages both as zod's `safeParse`.
 */
module Zod {
  import opened Wrappers
  import opened Json

  /** Checks on `z.number()`: `.int()`, `.positive()` (Gt 0), `.min(b)` (Ge b), `.max(b)` (Le b). */
  datatype NumCheck = Int | Gt(bound: real) | Ge(bound: real) | Le(bound: real)

  /** Checks on `z.string()`: `.min(n, message)` and `.url()`. */
  datatype StrCheck = MinLength(length: nat, message: string) | Url

  /** What an object does with keys its shape does not declare: `.strict()` rejects them, the default strips them. */
  datatype UnknownKeys = Strict | Strip

  datatype Schema =
    | ZString(strChecks: seq<StrCheck>)
    | ZNumber(numChecks: seq<NumCheck>)
    | ZBoolean
    | ZEnum(options: seq<string>)
    | ZLiteral(literal: string)
    | ZAny
    | ZArray(element: Schema)
    | ZRecord(value: Schema)
    | ZObject(shape: seq<Field>, unknownKeys: UnknownKeys)
    | ZUnion(alternatives: seq<Schema>)
    | ZRefine(inner: Schema, holds: Json -> bool, at: Path, message: string)

  /** One entry of an object shape; `optional` covers `.optional()` and `.default(x).optional()`. */
  datatype Field = Field(key: string, schema: Schema, optional: bool)

  /** A step of an issue path: an object key or an array index. */
  datatype Seg = Key(name: string) | Index(index: nat)
  type Path = seq<Seg>

  /** zod's issue codes; a failed `.int()` is reported by zod as `invalid_type` too. */
  datatype Code =
    | InvalidType
    | InvalidLiteral
    | InvalidEnumValue
    | InvalidUnion
    | InvalidString
    | TooSmall
    | TooBig
    | UnrecognizedKeys(unknown: set<string>)
    | Custom

  /** An issue: where, what, and the schema's own message when it gives one. */
  datatype Issue = Issue(path: Path, code: Code, message: Option<string>)

  /** The outcome of parsing one value: its issues, and whether the parse was aborted. */
  datatype Checked = Checked(issues: set<Issue>, aborted: bool)

  /** The outcome of `safeParse`. */
  datatype Parsed = Success(data: Json) | Failure(issues: set<Issue>)

  function Keys(shape: seq<Field>): set<string> {
    set i | 0 <= i < |shape| :: shape[i].key
  }

  /** `.partial()`: the same object with every key of its shape optional. */
  function Partial(s: Schema): (r: Schema)
    requires s.ZObject?
    ensures r.ZObject? && r.unknownKeys == s.unknownKeys && |r.shape| == |s.shape|
    ensures forall i :: 0 <= i < |s.shape| ==>
              r.shape[i].optional && r.shape[i].key == s.shape[i].key && r.shape[i].schema == s.shape[i].schema
  {
    ZObject(seq(|s.shape|, i requires 0 <= i < |s.shape| => s.shape[i].(optional := true)), s.unknownKeys)
  }

  /** `.extend({k: e})` for a key `k` the object declares at `i`: that entry becomes the required `e`. */
  function Extend(s: Schema, i: nat, e: Schema): (r: Schema)
    requires s.ZObject? && i < |s.shape|
    ensures r.ZObject? && r.unknownKeys == s.unknownKeys && |r.shape| == |s.shape|
    ensures r.shape[i] == Field(s.shape[i].key, e, false)
    ensures forall j :: 0 <= j < |s.shape| && j != i ==> r.shape[j] == s.shape[j]
  {
    ZObject(s.shape[i := Field(s.shape[i].key, e, false)], s.unknownKeys)
  }

  /** Position of the first shape entry declaring `key`. */
  function FieldIndex(shape: seq<Field>, key: string): (i: nat)
    requires key in Keys(shape)
    ensures i < |shape| && shape[i].key == key
    ensures forall j :: 0 <= j < i ==> shape[j].key != key
  {
    if shape[0].key == key then 0
    else
      assert key in Keys(shape[1..]) by {
        var j :| 0 <= j < |shape| && shape[j].key == key;
        assert shape[1..][j - 1].key == key;
      }
      1 + FieldIndex(shape[1..], key)
  }

  predicate NumOk(c: NumCheck, n: real) {
    match c
    case Int => n == n.Floor as real
    case Gt(b) => n > b
    case Ge(b) => n >= b
    case Le(b) => n <= b
  }

  predicate StrOk(c: StrCheck, s: string, isUrl: string -> bool) {
    match c
    case MinLength(k, _) => |s| >= k
    case Url => isUrl(s)
  }

  /** Whether `v` conforms to `s`; `isUrl` decides `.url()`. */
  predicate Valid(s: Schema, v: Json, isUrl: string -> bool)
    decreases s, 1
  {
    match s
    case ZString(checks) => v.JStr? && forall i :: 0 <= i < |checks| ==> StrOk(checks[i], v.str, isUrl)
    case ZNumber(checks) => v.JNum? && forall i :: 0 <= i < |checks| ==> NumOk(checks[i], v.num)
    case ZBoolean => v.JBool?
    case ZEnum(options) => v.JStr? && v.str in options
    case ZLiteral(lit) => v == JStr(lit)
    case ZAny => true
    case ZArray(e) => v.JArr? && forall i :: 0 <= i < |v.items| ==> Valid(e, v.items[i], isUrl)
    case ZRecord(e) => v.JObj? && forall k :: k in v.fields ==> Valid(e, v.fields[k], isUrl)
    case ZObject(shape, unknownKeys) =>
      && v.JObj?
      && (unknownKeys == Strict ==> v.fields.Keys <= Keys(shape))
      && forall i :: 0 <= i < |shape| ==>
           if shape[i].key in v.fields then Valid(shape[i].schema, v.fields[shape[i].key], isUrl)
           else shape[i].optional
    case ZUnion(alts) => exists i :: 0 <= i < |alts| && Valid(alts[i], v, isUrl)
    case ZRefine(inner, holds, _, _) => Valid(inner, v, isUrl) && holds(Output(inner, v, isUrl))
  }

  /** The first alternative of the union `s`, from `j` on, that `v` conforms to. */
  function FirstValid(s: Schema, j: nat, v: Json, isUrl: string -> bool): (r: Option<nat>)
    requires s.ZUnion? && j <= |s.alternatives|
    decreases s, 0, |s.alternatives| - j
    ensures r.Some? ==> j <= r.value < |s.alternatives| && Valid(s.alternatives[r.value], v, isUrl)
    ensures r.None? <==> forall i :: j <= i < |s.alternatives| ==> !Valid(s.alternatives[i], v, isUrl)
  {
    if j == |s.alternatives| then None
    else if Valid(s.alternatives[j], v, isUrl) then Some(j)
    else FirstValid(s, j + 1, v, isUrl)
  }

  /**
    The value a parse of `v` returns: objects keep only the keys of their
    shape; a union answers with its first conforming alternative. Where no
    alternative conforms, zod hands back its first dirty alternative's value
    and this returns `v` itself; the parse has failed then, and no caller
    reads the value.
   */
  function Output(s: Schema, v: Json, isUrl: string -> bool): Json
    decreases s, 1
  {
    match s
    case ZArray(e) =>
      if v.JArr? then JArr(seq(|v.items|, i requires 0 <= i < |v.items| => Output(e, v.items[i], isUrl))) else v
    case ZRecord(e) =>
      if v.JObj? then JObj(map k | k in v.fields :: Output(e, v.fields[k], isUrl)) else v
    case ZObject(shape, _) =>
      if v.JObj?
      then JObj(map k | k in v.fields && k in Keys(shape) :: Output(shape[FieldIndex(shape, k)].schema, v.fields[k], isUrl))
      else v
    case ZUnion(alts) =>
      (match FirstValid(s, 0, v, isUrl)
       case Some(i) => Output(alts[i], v, isUrl)
       case None => v)
    case ZRefine(inner, _, _, _) => Output(inner, v, isUrl)
    case _ => v
  }

  const Ok := Checked({}, false)

  function Abort(path: Path, code: Code): (r: Checked)
    ensures r.aborted && Issue(path, code, None) in r.issues
    ensures forall iss :: iss in r.issues ==> iss.path == path
  {
    Checked({Issue(path, code, None)}, true)
  }

  /** How zod combines the results of an object's properties or an array's elements. */
  function Merge(results: seq<Checked>): (r: Checked)
    ensures forall iss :: iss in r.issues <==> exists j :: 0 <= j < |results| && iss in results[j].issues
    ensures r.aborted <==> exists j :: 0 <= j < |results| && results[j].aborted
    ensures r.issues == {} <==> forall j :: 0 <= j < |results| ==> results[j].issues == {}
  {
    var issues := set j, iss | 0 <= j < |results| && iss in results[j].issues :: iss;
    assert issues == {} <== forall j :: 0 <= j < |results| ==> results[j].issues == {};
    assert issues == {} ==> forall j :: 0 <= j < |results| ==> results[j].issues == {} by {
      forall j | 0 <= j < |results| && results[j].issues != {} ensures issues != {} {
        var iss :| iss in results[j].issues;
        assert iss in issues;
      }
    }
    Checked(issues, exists j :: 0 <= j < |results| && results[j].aborted)
  }

  /** The index of the first result that was not aborted. */
  function FirstDirty(results: seq<Checked>): (r: Option<nat>)
    ensures r.Some? ==> r.value < |results| && !results[r.value].aborted
    ensures r.None? ==> forall j :: 0 <= j < |results| ==> results[j].aborted
  {
    if results == [] then None
    else if !results[0].aborted then Some(0)
    else match FirstDirty(results[1..])
      case Some(i) => Some(i + 1)
      case None => None
  }

  function StrIssue(path: Path, c: StrCheck): Issue {
    match c
    case MinLength(_, message) => Issue(path, TooSmall, Some(message))
    case Url => Issue(path, InvalidString, None)
  }

  function NumCode(c: NumCheck): Code {
    match c
    case Int => InvalidType
    case Gt(_) => TooSmall
    case Ge(_) => TooSmall
    case Le(_) => TooBig
  }

  /**
    What zod's parser reports for `v` at `path`. Failed type tests abort;
    failed number and string checks and unknown keys only make the result
    dirty; an object or array is aborted when one of its parts is; a union
    is clean if one alternative is, else reports its first dirty alternative,
    else a single `invalid_union`; a refinement runs on the parsed value of a
    result that was not aborted.
   */
  function Check(s: Schema, v: Json, path: Path, isUrl: string -> bool): (r: Checked)
    decreases s, 1
    ensures r.aborted ==> r.issues != {}
    ensures forall iss :: iss in r.issues ==> path <= iss.path
  {
    match s
    case ZString(checks) =>
      if !v.JStr? then Abort(path, InvalidType)
      else Checked(set i | 0 <= i < |checks| && !StrOk(checks[i], v.str, isUrl) :: StrIssue(path, checks[i]), false)
    case ZNumber(checks) =>
      if !v.JNum? then Abort(path, InvalidType)
      else Checked(set i | 0 <= i < |checks| && !NumOk(checks[i], v.num) :: Issue(path, NumCode(checks[i]), None), false)
    case ZBoolean => if v.JBool? then Ok else Abort(path, InvalidType)
    case ZEnum(options) =>
      if !v.JStr? then Abort(path, InvalidType)
      else if v.str in options then Ok
      else Abort(path, InvalidEnumValue)
    case ZLiteral(lit) => if v == JStr(lit) then Ok else Abort(path, InvalidLiteral)
    case ZAny => Ok
    case ZArray(_) => if v.JArr? then Merge(ArrayResults(s, v, path, isUrl)) else Abort(path, InvalidType)
    case ZRecord(_) => if v.JObj? then CheckRecord(s, v, path, isUrl) else Abort(path, InvalidType)
    case ZObject(_, _) => if v.JObj? then Merge(ObjectResults(s, v, path, isUrl)) else Abort(path, InvalidType)
    case ZUnion(alts) =>
      var results := UnionResults(s, v, path, isUrl);
      if exists i :: 0 <= i < |results| && results[i].issues == {} then Ok
      else
        (match FirstDirty(results)
         case Some(i) => Checked(results[i].issues, false)
         case None => Abort(path, InvalidUnion))
    case ZRefine(inner, holds, at, message) =>
      var r := Check(inner, v, path, isUrl);
      if r.aborted then r
      else Checked(r.issues + (if holds(Output(inner, v, isUrl)) then {} else {Issue(path + at, Custom, Some(message))}), false)
  }

  /** The results of an array's elements, each at its index. */
  function ArrayResults(s: Schema, v: Json, path: Path, isUrl: string -> bool): (rs: seq<Checked>)
    requires s.ZArray? && v.JArr?
    decreases s, 0
    ensures |rs| == |v.items|
    ensures forall i :: 0 <= i < |v.items| ==> rs[i] == Check(s.element, v.items[i], path + [Index(i)], isUrl)
    ensures forall j, iss :: 0 <= j < |rs| && iss in rs[j].issues ==> path <= iss.path
  {
    var rs := seq(|v.items|, i requires 0 <= i < |v.items| => Check(s.element, v.items[i], path + [Index(i)], isUrl));
    assert forall j, iss :: 0 <= j < |rs| && iss in rs[j].issues ==> path + [Index(j)] <= iss.path;
    rs
  }

  /** The results a record merges: the issues of every value, each at its key. */
  function CheckRecord(s: Schema, v: Json, path: Path, isUrl: string -> bool): (r: Checked)
    requires s.ZRecord? && v.JObj?
    decreases s, 0
    ensures r.aborted ==> r.issues != {}
    ensures forall iss :: iss in r.issues ==> path <= iss.path
    ensures forall iss :: iss in r.issues <==> exists k :: k in v.fields && iss in Check(s.value, v.fields[k], path + [Key(k)], isUrl).issues
    ensures r.aborted <==> exists k :: k in v.fields && Check(s.value, v.fields[k], path + [Key(k)], isUrl).aborted
  {
    var e := s.value;
    var issues := set k, iss | k in v.fields && iss in Check(e, v.fields[k], path + [Key(k)], isUrl).issues :: iss;
    var aborted := exists k :: k in v.fields && Check(e, v.fields[k], path + [Key(k)], isUrl).aborted;
    assert aborted ==> issues != {} by {
      if aborted {
        var k :| k in v.fields && Check(e, v.fields[k], path + [Key(k)], isUrl).aborted;
        var iss :| iss in Check(e, v.fields[k], path + [Key(k)], isUrl).issues;
        assert iss in issues;
      }
    }
    assert forall iss :: iss in issues ==> path <= iss.path by {
      forall iss | iss in issues ensures path <= iss.path {
        var k :| k in v.fields && iss in Check(e, v.fields[k], path + [Key(k)], isUrl).issues;
        assert path + [Key(k)] <= iss.path;
      }
    }
    Checked(issues, aborted)
  }

  /**
    What zod reports for a required key that is absent: it parses `undefined`
    with the entry's schema, so a literal reports `invalid_literal`, a union
    (none of whose alternatives takes `undefined`) `invalid_union`, a
    refinement what its inner schema reports, and anything else
    `invalid_type`; each of these aborts.
   */
  function MissingCode(s: Schema): Code {
    match s
    case ZLiteral(_) => InvalidLiteral
    case ZUnion(_) => InvalidUnion
    case ZRefine(inner, _, _, _) => MissingCode(inner)
    case _ => InvalidType
  }

  /** The results zod merges for an object: one per shape entry, then the unknown-key check. */
  function ObjectResults(s: Schema, v: Json, path: Path, isUrl: string -> bool): (rs: seq<Checked>)
    requires s.ZObject? && v.JObj?
    decreases s, 0
    ensures |rs| == |s.shape| + 1
    ensures forall i :: 0 <= i < |s.shape| ==>
      rs[i] == (if s.shape[i].key in v.fields then Check(s.shape[i].schema, v.fields[s.shape[i].key], path + [Key(s.shape[i].key)], isUrl)
                else if s.shape[i].optional then Ok
                else Abort(path + [Key(s.shape[i].key)], MissingCode(s.shape[i].schema)))
    ensures rs[|s.shape|] ==
      var extra := v.fields.Keys - Keys(s.shape);
      if s.unknownKeys == Strict && extra != {} then Checked({Issue(path, UnrecognizedKeys(extra), None)}, false) else Ok
    ensures forall j, iss :: 0 <= j < |rs| && iss in rs[j].issues ==> path <= iss.path
  {
    var shape := s.shape;
    var entries := seq(|shape|, i requires 0 <= i < |shape| =>
      if shape[i].key in v.fields then Check(shape[i].schema, v.fields[shape[i].key], path + [Key(shape[i].key)], isUrl)
      else if shape[i].optional then Ok
      else Abort(path + [Key(shape[i].key)], MissingCode(shape[i].schema)));
    var extra := v.fields.Keys - Keys(shape);
    var unknown := if s.unknownKeys == Strict && extra != {} then Checked({Issue(path, UnrecognizedKeys(extra), None)}, false) else Ok;
    var rs := entries + [unknown];
    assert forall j, iss :: 0 <= j < |shape| && iss in rs[j].issues ==> path + [Key(shape[j].key)] <= iss.path;
    rs
  }

  /** The results of a union's alternatives, all at the union's own path. */
  function UnionResults(s: Schema, v: Json, path: Path, isUrl: string -> bool): (rs: seq<Checked>)
    requires s.ZUnion?
    decreases s, 0
    ensures |rs| == |s.alternatives|
    ensures forall i :: 0 <= i < |rs| ==> rs[i] == Check(s.alternatives[i], v, path, isUrl)
  {
    seq(|s.alternatives|, i requires 0 <= i < |s.alternatives| => Check(s.alternatives[i], v, path, isUrl))
  }

  /** zod reports no issue for `v` exactly when `v` conforms to `s`, wherever `v` sits. */
  lemma {:induction false} CheckSound(s: Schema, v: Json, path: Path, isUrl: string -> bool)
    ensures Check(s, v, path, isUrl).issues == {} <==> Valid(s, v, isUrl)
    decreases s, 1
  {
    match s
    case ZString(checks) =>
      if v.JStr? && !Valid(s, v, isUrl) {
        var i :| 0 <= i < |checks| && !StrOk(checks[i], v.str, isUrl);
        assert StrIssue(path, checks[i]) in Check(s, v, path, isUrl).issues;
      }
    case ZNumber(checks) =>
      if v.JNum? && !Valid(s, v, isUrl) {
        var i :| 0 <= i < |checks| && !NumOk(checks[i], v.num);
        assert Issue(path, NumCode(checks[i]), None) in Check(s, v, path, isUrl).issues;
      }
    case ZArray(_) => CheckSoundArray(s, v, path, isUrl);
    case ZRecord(_) => CheckSoundRecord(s, v, path, isUrl);
    case ZObject(_, _) => CheckSoundObject(s, v, path, isUrl);
    case ZUnion(_) => CheckSoundUnion(s, v, path, isUrl);
    case ZRefine(inner, _, _, _) => CheckSound(inner, v, path, isUrl);
    case _ =>
  }

  lemma {:induction false} CheckSoundArray(s: Schema, v: Json, path: Path, isUrl: string -> bool)
    requires s.ZArray?
    ensures Check(s, v, path, isUrl).issues == {} <==> Valid(s, v, isUrl)
    decreases s, 0
  {
    if v.JArr? {
      var results := ArrayResults(s, v, path, isUrl);
      forall i | 0 <= i < |v.items| ensures results[i].issues == {} <==> Valid(s.element, v.items[i], isUrl) {
        CheckSound(s.element, v.items[i], path + [Index(i)], isUrl);
      }
    }
  }

  lemma {:induction false} CheckSoundRecord(s: Schema, v: Json, path: Path, isUrl: string -> bool)
    requires s.ZRecord?
    ensures Check(s, v, path, isUrl).issues == {} <==> Valid(s, v, isUrl)
    decreases s, 0
  {
    if v.JObj? {
      var e := s.value;
      forall k | k in v.fields {
        CheckSound(e, v.fields[k], path + [Key(k)], isUrl);
      }
      if !Valid(s, v, isUrl) {
        var k :| k in v.fields && !Valid(e, v.fields[k], isUrl);
        var iss :| iss in Check(e, v.fields[k], path + [Key(k)], isUrl).issues;
        assert iss in CheckRecord(s, v, path, isUrl).issues;
      }
    }
  }

  lemma {:induction false} CheckSoundObject(s: Schema, v: Json, path: Path, isUrl: string -> bool)
    requires s.ZObject?
    ensures Check(s, v, path, isUrl).issues == {} <==> Valid(s, v, isUrl)
    decreases s, 0
  {
    if v.JObj? {
      var shape := s.shape;
      var all := ObjectResults(s, v, path, isUrl);
      forall i | 0 <= i < |shape|
        ensures all[i].issues == {} <==>
          if shape[i].key in v.fields then Valid(shape[i].schema, v.fields[shape[i].key], isUrl) else shape[i].optional
      {
        if shape[i].key in v.fields {
          CheckSound(shape[i].schema, v.fields[shape[i].key], path + [Key(shape[i].key)], isUrl);
        }
      }
      if !(v.fields.Keys <= Keys(shape)) {
        var k :| k in v.fields.Keys && k !in Keys(shape);
        assert k in v.fields.Keys - Keys(shape);
      }
    }
  }

  lemma {:induction false} CheckSoundUnion(s: Schema, v: Json, path: Path, isUrl: string -> bool)
    requires s.ZUnion?
    ensures Check(s, v, path, isUrl).issues == {} <==> Valid(s, v, isUrl)
    decreases s, 0
  {
    var alts := s.alternatives;
    var results := UnionResults(s, v, path, isUrl);
    forall i | 0 <= i < |alts| ensures results[i].issues == {} <==> Valid(alts[i], v, isUrl) {
      CheckSound(alts[i], v, path, isUrl);
    }
    if !Valid(s, v, isUrl) {
      match FirstDirty(results)
      case Some(i) => assert results[i].issues != {};
      case None =>
    }
  }

  /** A strict object reports, at its own path, every key its shape does not declare, and so rejects the value. */
  lemma StrictRejectsUnknown(s: Schema, v: Json, path: Path, isUrl: string -> bool)
    requires s.ZObject? && s.unknownKeys == Strict && v.JObj?
    requires !(v.fields.Keys <= Keys(s.shape))
    ensures Issue(path, UnrecognizedKeys(v.fields.Keys - Keys(s.shape)), None) in Check(s, v, path, isUrl).issues
    ensures !Valid(s, v, isUrl)
  {
    var rs := ObjectResults(s, v, path, isUrl);
    assert Check(s, v, path, isUrl) == Merge(rs);
    var k :| k in v.fields.Keys && k !in Keys(s.shape);
    assert k in v.fields.Keys - Keys(s.shape);
    assert Issue(path, UnrecognizedKeys(v.fields.Keys - Keys(s.shape)), None) in rs[|s.shape|].issues;
  }

  /** A parse is aborted unless every required key is present and its own parse was not aborted. */
  lemma RequiredNotAborted(s: Schema, v: Json, path: Path, i: nat, isUrl: string -> bool)
    requires s.ZObject? && i < |s.shape| && !s.shape[i].optional
    requires !Check(s, v, path, isUrl).aborted
    ensures v.JObj? && s.shape[i].key in v.fields
    ensures !Check(s.shape[i].schema, v.fields[s.shape[i].key], path + [Key(s.shape[i].key)], isUrl).aborted
  {
    if v.JObj? {
      var rs := ObjectResults(s, v, path, isUrl);
      assert Check(s, v, path, isUrl) == Merge(rs);
      assert !rs[i].aborted;
    }
  }

  /** The parsed object keeps the declared keys of the input, each parsed by the first shape entry that declares it. */
  lemma OutputField(s: Schema, v: Json, i: nat, isUrl: string -> bool)
    requires s.ZObject? && v.JObj? && i < |s.shape| && s.shape[i].key in v.fields
    requires forall j :: 0 <= j < i ==> s.shape[j].key != s.shape[i].key
    ensures Output(s, v, isUrl).JObj? && s.shape[i].key in Output(s, v, isUrl).fields
    ensures Output(s, v, isUrl).fields[s.shape[i].key] == Output(s.shape[i].schema, v.fields[s.shape[i].key], isUrl)
  {
    var k := s.shape[i].key;
    assert k in Keys(s.shape);
    var j := FieldIndex(s.shape, k);
    assert j == i;
  }

  /** The parsed object holds exactly the input's declared keys. */
  lemma OutputKeys(s: Schema, v: Json, isUrl: string -> bool)
    requires s.ZObject? && v.JObj?
    ensures Output(s, v, isUrl).JObj?
    ensures Output(s, v, isUrl).fields.Keys == v.fields.Keys * Keys(s.shape)
  {
  }

  /** What a conforming object promises about one entry of its shape. */
  lemma FieldValid(s: Schema, v: Json, i: nat, isUrl: string -> bool)
    requires s.ZObject? && i < |s.shape| && Valid(s, v, isUrl)
    ensures v.JObj?
    ensures s.shape[i].key in v.fields ==> Valid(s.shape[i].schema, v.fields[s.shape[i].key], isUrl)
    ensures !s.shape[i].optional ==> s.shape[i].key in v.fields
    ensures s.unknownKeys == Strict ==> v.fields.Keys <= Keys(s.shape)
  {
  }

  /** An object conforms when its keys are allowed, its present entries conform and its absent entries are optional. */
  lemma ObjectValidIntro(s: Schema, v: Json, isUrl: string -> bool)
    requires s.ZObject? && v.JObj?
    requires s.unknownKeys == Strict ==> v.fields.Keys <= Keys(s.shape)
    requires forall i :: 0 <= i < |s.shape| && s.shape[i].key in v.fields ==> Valid(s.shape[i].schema, v.fields[s.shape[i].key], isUrl)
    requires forall i :: 0 <= i < |s.shape| && s.shape[i].key !in v.fields ==> s.shape[i].optional
    ensures Valid(s, v, isUrl)
  {
  }

  /** An object whose keys are all declared, and whose present entries each parse to themselves, parses to itself. */
  lemma OutputUnchanged(s: Schema, v: Json, isUrl: string -> bool)
    requires s.ZObject? && v.JObj? && v.fields.Keys <= Keys(s.shape)
    requires forall i :: 0 <= i < |s.shape| && s.shape[i].key in v.fields ==>
               && (forall j :: 0 <= j < i ==> s.shape[j].key != s.shape[i].key)
               && Output(s.shape[i].schema, v.fields[s.shape[i].key], isUrl) == v.fields[s.shape[i].key]
    ensures Output(s, v, isUrl) == v
  {
    var o := Output(s, v, isUrl);
    OutputKeys(s, v, isUrl);
    forall k | k in v.fields ensures o.fields[k] == v.fields[k] {
      OutputField(s, v, FieldIndex(s.shape, k), isUrl);
    }
    assert o.fields == v.fields;
  }

  /** A refinement of a conforming value reports its own issue, at its own path, exactly when its test fails on the parsed value. */
  lemma RefineOfValid(s: Schema, v: Json, path: Path, isUrl: string -> bool)
    requires s.ZRefine? && Valid(s.inner, v, isUrl)
    ensures !Check(s.inner, v, path, isUrl).aborted
    ensures Valid(s, v, isUrl) <==> s.holds(Output(s.inner, v, isUrl))
    ensures Check(s, v, path, isUrl).issues ==
              if s.holds(Output(s.inner, v, isUrl)) then {} else {Issue(path + s.at, Custom, Some(s.message))}
  {
    CheckSound(s.inner, v, path, isUrl);
  }

  /** A refinement runs on a result that is merely dirty too, adding its issue to the inner schema's. */
  lemma RefineOfDirty(s: Schema, v: Json, path: Path, isUrl: string -> bool)
    requires s.ZRefine? && !Check(s.inner, v, path, isUrl).aborted
    ensures !Check(s, v, path, isUrl).aborted
    ensures Check(s, v, path, isUrl).issues ==
              Check(s.inner, v, path, isUrl).issues + if s.holds(Output(s.inner, v, isUrl)) then {} else {Issue(path + s.at, Custom, Some(s.message))}
  {
  }

  /** A strict object with one required key accepts exactly the objects holding that key alone, with a conforming value. */
  lemma OneKeyObject(k: string, e: Schema, v: Json, isUrl: string -> bool)
    ensures Valid(ZObject([Field(k, e, false)], Strict), v, isUrl) <==>
              v.JObj? && v.fields.Keys == {k} && Valid(e, v.fields[k], isUrl)
  {
    var shape := [Field(k, e, false)];
    assert Keys(shape) == {k} by {
      assert shape[0].key == k;
    }
  }

  /** `.partial()` drops the presence requirement and nothing else. */
  lemma PartialValid(s: Schema, v: Json, isUrl: string -> bool)
    requires s.ZObject?
    ensures Keys(Partial(s).shape) == Keys(s.shape)
    ensures Valid(Partial(s), v, isUrl) <==>
              && v.JObj?
              && (s.unknownKeys == Strict ==> v.fields.Keys <= Keys(s.shape))
              && forall i :: 0 <= i < |s.shape| && s.shape[i].key in v.fields ==> Valid(s.shape[i].schema, v.fields[s.shape[i].key], isUrl)
  {
    var p := Partial(s);
    assert forall k :: k in Keys(s.shape) ==> k in Keys(p.shape) by {
      forall k | k in Keys(s.shape) ensures k in Keys(p.shape) {
        var i :| 0 <= i < |s.shape| && s.shape[i].key == k;
        assert p.shape[i].key == k;
      }
    }
  }

  /** Keeping any subset of the keys of a conforming object gives a value its partial form accepts. */
  lemma PartialAcceptsRestriction(s: Schema, v: Json, keep: set<string>, isUrl: string -> bool)
    requires s.ZObject? && Valid(s, v, isUrl)
    ensures Valid(Partial(s), Restrict(v, keep), isUrl)
  {
    PartialValid(s, v, isUrl);
    PartialValid(s, Restrict(v, keep), isUrl);
  }

  /**
    Replacing an entry's schema by one its present value conforms to, and
    that value, keeps an object with distinct keys conforming.
   */
  lemma ExtendValid(s: Schema, i: nat, e: Schema, v: Json, x: Json, isUrl: string -> bool)
    requires s.ZObject? && i < |s.shape| && DistinctKeys(s.shape)
    requires Valid(s, v, isUrl) && Valid(e, x, isUrl)
    ensures v.JObj? && Valid(Extend(s, i, e), JObj(v.fields[s.shape[i].key := x]), isUrl)
  {
    var r := Extend(s, i, e);
    var k := s.shape[i].key;
    FieldValid(s, v, i, isUrl);
    var w := JObj(v.fields[k := x]);
    if s.unknownKeys == Strict {
      forall key | key in w.fields ensures key in Keys(r.shape) {
        if key == k {
          assert r.shape[i].key == key;
        } else {
          var j :| 0 <= j < |s.shape| && s.shape[j].key == key;
          assert r.shape[j].key == key;
        }
      }
    }
    forall j | 0 <= j < |r.shape| && r.shape[j].key in w.fields
      ensures Valid(r.shape[j].schema, w.fields[r.shape[j].key], isUrl)
    {
      if j != i {
        FieldValid(s, v, j, isUrl);
      }
    }
    forall j | 0 <= j < |r.shape| && r.shape[j].key !in w.fields ensures r.shape[j].optional {
      FieldValid(s, v, j, isUrl);
    }
    ObjectValidIntro(r, w, isUrl);
  }

  /** An absent required key is reported at that key, with the code its schema gives `undefined`, and aborts the object. */
  lemma MissingReported(s: Schema, v: Json, path: Path, i: nat, isUrl: string -> bool)
    requires s.ZObject? && v.JObj? && i < |s.shape| && s.shape[i].key !in v.fields && !s.shape[i].optional
    ensures Issue(path + [Key(s.shape[i].key)], MissingCode(s.shape[i].schema), None) in Check(s, v, path, isUrl).issues
    ensures Check(s, v, path, isUrl).aborted
  {
    var rs := ObjectResults(s, v, path, isUrl);
    assert Check(s, v, path, isUrl) == Merge(rs);
    assert rs[i] == Abort(path + [Key(s.shape[i].key)], MissingCode(s.shape[i].schema));
  }

  /** An object reports, among its own issues, every issue of a present entry. */
  lemma EntryIssuesReported(s: Schema, v: Json, path: Path, i: nat, isUrl: string -> bool)
    requires s.ZObject? && v.JObj? && i < |s.shape| && s.shape[i].key in v.fields
    ensures Check(s.shape[i].schema, v.fields[s.shape[i].key], path + [Key(s.shape[i].key)], isUrl).issues <= Check(s, v, path, isUrl).issues
  {
    var rs := ObjectResults(s, v, path, isUrl);
    assert Check(s, v, path, isUrl) == Merge(rs);
    assert rs[i] == Check(s.shape[i].schema, v.fields[s.shape[i].key], path + [Key(s.shape[i].key)], isUrl);
  }

  /** An array reports, among its own issues, every issue of each of its elements. */
  lemma ElementIssuesReported(s: Schema, v: Json, path: Path, i: nat, isUrl: string -> bool)
    requires s.ZArray? && v.JArr? && i < |v.items|
    ensures Check(s.element, v.items[i], path + [Index(i)], isUrl).issues <= Check(s, v, path, isUrl).issues
  {
    var rs := ArrayResults(s, v, path, isUrl);
    assert Check(s, v, path, isUrl) == Merge(rs);
  }

  /** A union of two alternatives accepts what either accepts. */
  lemma UnionOfTwo(a: Schema, b: Schema, v: Json, isUrl: string -> bool)
    ensures Valid(ZUnion([a, b]), v, isUrl) <==> Valid(a, v, isUrl) || Valid(b, v, isUrl)
  {
    var alts := [a, b];
    if Valid(ZUnion(alts), v, isUrl) {
      var i :| 0 <= i < |alts| && Valid(alts[i], v, isUrl);
      assert i == 0 || i == 1;
    }
    if Valid(a, v, isUrl) {
      assert Valid(alts[0], v, isUrl);
    }
    if Valid(b, v, isUrl) {
      assert Valid(alts[1], v, isUrl);
    }
  }

  /** zod's `safeParse`: success exactly for conforming values, carrying the parsed value; otherwise the issues `Check` reports. */
  function SafeParse(s: Schema, v: Json, isUrl: string -> bool): (r: Parsed)
    ensures r.Success? <==> Valid(s, v, isUrl)
    ensures r.Success? ==> r.data == Output(s, v, isUrl)
    ensures r.Failure? ==> r.issues != {} && r.issues == Check(s, v, [], isUrl).issues
  {
    var c := Check(s, v, [], isUrl);
    CheckSound(s, v, [], isUrl);
    if c.issues == {} then Success(Output(s, v, isUrl)) else Failure(c.issues)
  }

  /** No key is declared twice in `shape`. */
  predicate DistinctKeys(shape: seq<Field>) {
    forall i, j :: 0 <= i < j < |shape| ==> shape[i].key != shape[j].key
  }

  /**
    Schemas whose parse output parses again: object shapes declare each key
    once, and a refinement judges a value as it judges its parsed form.
   */
  ghost predicate Tame(s: Schema, isUrl: string -> bool)
    decreases s
  {
    match s
    case ZArray(e) => Tame(e, isUrl)
    case ZRecord(e) => Tame(e, isUrl)
    case ZObject(shape, _) =>
      DistinctKeys(shape) && forall i :: 0 <= i < |shape| ==> Tame(shape[i].schema, isUrl)
    case ZUnion(alts) => forall i :: 0 <= i < |alts| ==> Tame(alts[i], isUrl)
    case ZRefine(inner, holds, _, _) =>
      Tame(inner, isUrl) && forall w :: holds(Output(inner, w, isUrl)) == holds(w)
    case _ => true
  }

  lemma ObjectTame(shape: seq<Field>, unknownKeys: UnknownKeys, isUrl: string -> bool)
    requires DistinctKeys(shape) && forall i :: 0 <= i < |shape| ==> Tame(shape[i].schema, isUrl)
    ensures Tame(ZObject(shape, unknownKeys), isUrl)
  {
  }

  /** Extends "the first `n` entries are tame" by one entry. */
  lemma EntriesTameUpTo(shape: seq<Field>, n: nat, isUrl: string -> bool)
    requires n < |shape| && Tame(shape[n].schema, isUrl)
    requires forall i :: 0 <= i < n ==> Tame(shape[i].schema, isUrl)
    ensures forall i :: 0 <= i < n + 1 ==> Tame(shape[i].schema, isUrl)
  {
  }

  /** Making every entry optional keeps a schema tame. */
  lemma PartialTame(s: Schema, isUrl: string -> bool)
    requires s.ZObject? && Tame(s, isUrl)
    ensures Tame(Partial(s), isUrl)
  {
  }

  /** What a successful parse returns conforms to the schema again. */
  lemma {:induction false} OutputValid(s: Schema, v: Json, isUrl: string -> bool)
    requires Tame(s, isUrl) && Valid(s, v, isUrl)
    ensures Valid(s, Output(s, v, isUrl), isUrl)
    decreases s
  {
    match s
    case ZArray(e) =>
      forall i | 0 <= i < |v.items| {
        OutputValid(e, v.items[i], isUrl);
      }
    case ZRecord(e) =>
      forall k | k in v.fields {
        OutputValid(e, v.fields[k], isUrl);
      }
    case ZObject(shape, _) =>
      var o := Output(s, v, isUrl);
      forall i | 0 <= i < |shape| && shape[i].key in v.fields
        ensures Valid(shape[i].schema, o.fields[shape[i].key], isUrl)
      {
        var k := shape[i].key;
        assert k in Keys(shape);
        assert FieldIndex(shape, k) == i;
        OutputValid(shape[i].schema, v.fields[k], isUrl);
      }
    case ZUnion(alts) =>
      var i := FirstValid(s, 0, v, isUrl).value;
      OutputValid(alts[i], v, isUrl);
    case ZRefine(inner, _, _, _) =>
      OutputValid(inner, v, isUrl);
    case _ =>
  }
}
