/** The JavaScript values that requests, bodies and extracted arguments are made of,
    and the few built-in string and lodash operations the core relies on. */
module JsValues {

  datatype Option<+T> = None | Some(value: T)

  /** A JSON-like JavaScript value. Numbers are integers here. */
  datatype Value =
    | Undefined
    | Null
    | Bool(b: bool)
    | Num(n: int)
    | Str(s: string)
    | Arr(items: seq<Value>)
    | Obj(fields: map<string, Value>)

  /** JavaScript truthiness (`if (v)`, `v || d`). */
  predicate Truthy(v: Value) {
    match v
    case Undefined => false
    case Null => false
    case Bool(b) => b
    case Num(n) => n != 0
    case Str(s) => s != ""
    case Arr(_) => true
    case Obj(_) => true
  }

  /** Property access `v[name]`: undefined on anything but an object that has it. */
  function Field(v: Value, name: string): Value {
    match v
    case Obj(m) => if name in m then m[name] else Undefined
    case _ => Undefined
  }

  /** Walks one property per segment, the way `_.get` follows a path. */
  function GetPath(v: Value, segments: seq<string>): Value
    decreases |segments|
  {
    if segments == [] then v else GetPath(Field(v, segments[0]), segments[1..])
  }

  /** `_.get(v, path)` for a dot-separated path. */
  function Get(v: Value, path: string): Value {
    GetPath(v, Split(path, "."))
  }

  predicate OccursAt(s: string, sep: string, j: nat) {
    j + |sep| <= |s| && s[j..j + |sep|] == sep
  }

  /** `s.indexOf(sep, from)` for a non-empty separator, as an option. */
  function IndexOfFrom(s: string, sep: string, from: nat): (r: Option<nat>)
    requires sep != ""
    decreases |s| - from
    ensures r.Some? ==> from <= r.value && OccursAt(s, sep, r.value)
    ensures r.Some? ==> forall j :: from <= j < r.value ==> !OccursAt(s, sep, j)
    ensures r.None? ==> forall j :: from <= j ==> !OccursAt(s, sep, j)
  {
    if from + |sep| > |s| then None
    else if s[from..from + |sep|] == sep then Some(from)
    else IndexOfFrom(s, sep, from + 1)
  }

  /** The one-character strings of `s`: what `s.split('')` returns. */
  function Chars(s: string): (r: seq<string>)
    ensures |r| == |s| && forall i :: 0 <= i < |s| ==> r[i] == [s[i]]
  {
    seq(|s|, i requires 0 <= i < |s| => [s[i]])
  }

  /** `s.split(sep)` with a string separator. */
  function Split(s: string, sep: string): (parts: seq<string>)
    decreases |s|
  {
    if sep == "" then Chars(s)
    else match IndexOfFrom(s, sep, 0)
      case None => [s]
      case Some(i) => [s[..i]] + Split(s[i + |sep|..], sep)
  }

  /** `parts.join(sep)`. */
  function Join(parts: seq<string>, sep: string): string
    decreases |parts|
  {
    if |parts| == 0 then ""
    else if |parts| == 1 then parts[0]
    else parts[0] + sep + Join(parts[1..], sep)
  }

  predicate Contains(s: string, sep: string) {
    exists j :: 0 <= j <= |s| && OccursAt(s, sep, j)
  }

  lemma {:induction false} JoinChars(s: string)
    ensures Join(Chars(s), "") == s
    decreases |s|
  {
    if |s| > 1 {
      assert Chars(s)[1..] == Chars(s[1..]);
      JoinChars(s[1..]);
      assert s == [s[0]] + s[1..];
    }
  }

  lemma {:induction false} JoinCons(first: string, rest: seq<string>, sep: string)
    requires |rest| >= 1
    ensures Join([first] + rest, sep) == first + sep + Join(rest, sep)
  {
    assert ([first] + rest)[1..] == rest;
  }

  /** A split on a non-empty separator has at least one piece. */
  lemma {:induction false} SplitNonEmpty(s: string, sep: string)
    requires sep != ""
    ensures |Split(s, sep)| >= 1
  {
  }

  /** One step of `Split`: the piece before the first separator, then the split of the rest. */
  lemma {:induction false} SplitStep(s: string, sep: string, i: nat)
    requires sep != "" && IndexOfFrom(s, sep, 0) == Some(i)
    ensures i + |sep| <= |s| && s == s[..i] + sep + s[i + |sep|..]
    ensures Split(s, sep) == [s[..i]] + Split(s[i + |sep|..], sep)
  {
    assert s == s[..i] + s[i..i + |sep|] + s[i + |sep|..];
  }

  /** Splitting and joining again with the same separator gives back the string. */
  lemma {:induction false} SplitJoin(s: string, sep: string)
    ensures Join(Split(s, sep), sep) == s
    decreases |s|
  {
    if sep == "" {
      JoinChars(s);
    } else if IndexOfFrom(s, sep, 0).Some? {
      var i := IndexOfFrom(s, sep, 0).value;
      var rest := s[i + |sep|..];
      SplitStep(s, sep, i);
      SplitJoin(rest, sep);
      SplitNonEmpty(rest, sep);
      JoinCons(s[..i], Split(rest, sep), sep);
    }
  }

  /** The text before the first occurrence of a separator does not contain it. */
  lemma {:induction false} BeforeFirstFree(s: string, sep: string, i: nat)
    requires sep != "" && IndexOfFrom(s, sep, 0) == Some(i)
    ensures !Contains(s[..i], sep)
  {
    var first := s[..i];
    forall j | 0 <= j <= |first| && OccursAt(first, sep, j) ensures false {
      assert first[j..j + |sep|] == s[j..j + |sep|];
      assert OccursAt(s, sep, j);
    }
  }

  /** No piece of a split on a non-empty separator contains the separator. */
  lemma {:induction false} SplitPiecesFree(s: string, sep: string)
    requires sep != ""
    ensures forall p :: p in Split(s, sep) ==> !Contains(p, sep)
    decreases |s|
  {
    if IndexOfFrom(s, sep, 0).None? {
      assert Split(s, sep) == [s];
      forall j | 0 <= j <= |s| && OccursAt(s, sep, j) ensures false {
      }
    } else {
      var i := IndexOfFrom(s, sep, 0).value;
      SplitStep(s, sep, i);
      SplitPiecesFree(s[i + |sep|..], sep);
      BeforeFirstFree(s, sep, i);
    }
  }

  /** `c.toUpperCase()` on the ASCII letters; every other character is kept. */
  function UpperChar(c: char): char {
    if 'a' <= c <= 'z' then (c as int - 32) as char else c
  }

  /** `s.toUpperCase()` on ASCII. */
  function ToUpperCase(s: string): (r: string)
    ensures |r| == |s| && forall i :: 0 <= i < |s| ==> r[i] == UpperChar(s[i])
  {
    seq(|s|, i requires 0 <= i < |s| => UpperChar(s[i]))
  }
}
