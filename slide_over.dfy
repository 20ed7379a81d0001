/**
 * The `classNames` helper of the slide-over panel: its arguments, filtered by
 * JavaScript truthiness, converted to strings and joined with single spaces.
 */
module SlideOver {

  /** The JavaScript values a caller passes to `classNames`. Numbers are integers here. */
  datatype JsValue =
    | JsBool(b: bool)
    | JsNull
    | JsUndefined
    | JsNaN
    | JsNumber(n: int)
    | JsString(s: string)

  /** `Boolean(v)`: false, null, undefined, NaN, 0 and "" are falsy, everything else truthy. */
  predicate Truthy(v: JsValue)
  {
    match v
    case JsBool(b) => b
    case JsNull => false
    case JsUndefined => false
    case JsNaN => false
    case JsNumber(n) => n != 0
    case JsString(s) => s != ""
  }

  /** Decimal digits of a natural number, most significant first. */
  function NatToString(n: nat): (r: string)
    ensures |r| >= 1
    ensures forall i :: 0 <= i < |r| ==> '0' <= r[i] <= '9'
    decreases n
  {
    var d := ['0' + (n % 10) as char];
    if n < 10 then d else NatToString(n / 10) + d
  }

  /** `String(v)`, the conversion `Array.prototype.join` applies to each element. */
  function ToStr(v: JsValue): string
  {
    match v
    case JsBool(b) => if b then "true" else "false"
    case JsNull => "null"
    case JsUndefined => "undefined"
    case JsNaN => "NaN"
    case JsNumber(n) => if n < 0 then "-" + NatToString(-n) else NatToString(n)
    case JsString(s) => s
  }

  /** A truthy value never renders as the empty string. */
  lemma TruthyRendersNonEmpty(v: JsValue)
    requires Truthy(v)
    ensures ToStr(v) != ""
  {
  }

  /** `classes.filter(Boolean)`: the truthy arguments, in argument order. */
  function Truthies(args: seq<JsValue>): (r: seq<JsValue>)
    ensures |r| <= |args|
    ensures forall i :: 0 <= i < |r| ==> Truthy(r[i]) && r[i] in args
    ensures forall v :: v in args && Truthy(v) ==> v in r
  {
    if |args| == 0 then []
    else (if Truthy(args[0]) then [args[0]] else []) + Truthies(args[1..])
  }

  /** `filter` distributes over concatenation, so it keeps argument order and repeated arguments. */
  lemma {:induction false} TruthiesAppend(a: seq<JsValue>, b: seq<JsValue>)
    ensures Truthies(a + b) == Truthies(a) + Truthies(b)
  {
    if |a| > 0 {
      assert (a + b)[0] == a[0];
      assert (a + b)[1..] == a[1..] + b;
      TruthiesAppend(a[1..], b);
    } else {
      assert a + b == b;
    }
  }

  /** A single argument is kept exactly when it is truthy. */
  lemma TruthiesSingleton(v: JsValue)
    ensures Truthies([v]) == if Truthy(v) then [v] else []
  {
    assert [v][1..] == [];
  }

  /** Each value converted with `ToStr`. */
  function Rendered(vals: seq<JsValue>): (r: seq<string>)
    ensures |r| == |vals|
    ensures forall i :: 0 <= i < |vals| ==> r[i] == ToStr(vals[i])
  {
    if |vals| == 0 then [] else [ToStr(vals[0])] + Rendered(vals[1..])
  }

  /** `parts.join(sep)`: no separator before the first part or after the last. */
  function Join(parts: seq<string>, sep: string): string
  {
    if |parts| == 0 then ""
    else if |parts| == 1 then parts[0]
    else parts[0] + sep + Join(parts[1..], sep)
  }

  /** `classNames(...classes)`. */
  function ClassNames(args: seq<JsValue>): string
  {
    Join(Rendered(Truthies(args)), " ")
  }

  /** Sum of the lengths of some strings. */
  function TotalLength(parts: seq<string>): nat
  {
    if |parts| == 0 then 0 else |parts[0]| + TotalLength(parts[1..])
  }

  /** How many arguments are truthy. */
  function CountTruthy(args: seq<JsValue>): nat
  {
    |Truthies(args)|
  }

  // ---------------------------------------------------------------------------
  // Properties of classNames

  /** The result is empty exactly when no argument is truthy (in particular with no arguments). */
  lemma {:induction false} ClassNamesEmptyIff(args: seq<JsValue>)
    ensures ClassNames(args) == "" <==> (forall i :: 0 <= i < |args| ==> !Truthy(args[i]))
  {
    var t := Truthies(args);
    if |t| == 0 {
      forall i | 0 <= i < |args| ensures !Truthy(args[i]) {
        assert args[i] in args;
      }
    } else {
      TruthyRendersNonEmpty(t[0]);
      JoinEmptyIff(Rendered(t), " ");
      assert t[0] in args;
      var i :| 0 <= i < |args| && args[i] == t[0];
      assert Truthy(args[i]);
    }
  }

  /** Joining with a non-empty separator is empty only for no parts or one empty part. */
  lemma JoinEmptyIff(parts: seq<string>, sep: string)
    requires sep != ""
    ensures Join(parts, sep) == "" <==> |parts| == 0 || (|parts| == 1 && parts[0] == "")
  {
    if |parts| > 1 {
      assert |Join(parts, sep)| >= |sep|;
    }
  }

  /** One step of the reference definition: how the first argument contributes. */
  lemma {:induction false} ClassNamesCons(v: JsValue, rest: seq<JsValue>)
    ensures ClassNames([v] + rest) ==
      if !Truthy(v) then ClassNames(rest)
      else if ClassNames(rest) == "" then ToStr(v)
      else ToStr(v) + " " + ClassNames(rest)
  {
    var args := [v] + rest;
    assert args[0] == v && args[1..] == rest;
    var tr := Truthies(rest);
    if Truthy(v) {
      assert Truthies(args) == [v] + tr;
      assert Rendered([v] + tr) == [ToStr(v)] + Rendered(tr);
      JoinEmptyIff(Rendered(tr), " ");
      if |tr| > 0 {
        TruthyRendersNonEmpty(tr[0]);
        assert ([ToStr(v)] + Rendered(tr))[1..] == Rendered(tr);
      }
    } else {
      assert Truthies(args) == tr;
    }
  }

  /** A falsy argument anywhere is dropped without leaving a separator behind. */
  lemma {:induction false} ClassNamesDropsFalsy(pre: seq<JsValue>, v: JsValue, post: seq<JsValue>)
    requires !Truthy(v)
    ensures ClassNames(pre + [v] + post) == ClassNames(pre + post)
  {
    if |pre| == 0 {
      assert pre + [v] + post == [v] + post;
      assert pre + post == post;
      ClassNamesCons(v, post);
    } else {
      ClassNamesDropsFalsy(pre[1..], v, post);
      assert pre + [v] + post == [pre[0]] + (pre[1..] + [v] + post);
      assert pre + post == [pre[0]] + (pre[1..] + post);
      ClassNamesCons(pre[0], pre[1..] + [v] + post);
      ClassNamesCons(pre[0], pre[1..] + post);
    }
  }

  /** A single truthy string argument comes back unchanged. */
  lemma SingleStringUnchanged(s: string)
    requires s != ""
    ensures ClassNames([JsString(s)]) == s
  {
    assert [JsString(s)][1..] == [];
  }

  /** Length of a join: the parts' lengths plus one separator between neighbours. */
  lemma {:induction false} JoinLength(parts: seq<string>, sep: string)
    requires |parts| >= 1
    ensures |Join(parts, sep)| == TotalLength(parts) + (|parts| - 1) * |sep|
  {
    if |parts| > 1 {
      JoinLength(parts[1..], sep);
    }
  }

  /** With k >= 1 truthy arguments the result is their rendered lengths plus k - 1 spaces. */
  lemma ClassNamesLength(args: seq<JsValue>)
    requires CountTruthy(args) >= 1
    ensures |ClassNames(args)| == TotalLength(Rendered(Truthies(args))) + CountTruthy(args) - 1
  {
    JoinLength(Rendered(Truthies(args)), " ");
  }

  // ---------------------------------------------------------------------------
  // Splitting on spaces undoes classNames when no class contains a space

  /** `s.split(" ")`. */
  function Split(s: string): (r: seq<string>)
    ensures |r| >= 1
  {
    if ' ' !in s then [s]
    else
      var i := FirstSpace(s);
      [s[..i]] + Split(s[i + 1..])
  }

  /** Index of the first space in `s`. */
  function FirstSpace(s: string): (i: nat)
    requires ' ' in s
    ensures i < |s| && s[i] == ' ' && ' ' !in s[..i]
  {
    if s[0] == ' ' then 0
    else
      assert s == [s[0]] + s[1..];
      var j := FirstSpace(s[1..]);
      assert s[..j + 1] == [s[0]] + s[1..][..j];
      j + 1
  }

  /** The first space is the one at `j` when nothing before `j` is a space. */
  lemma {:induction false} FirstSpaceAt(s: string, j: nat)
    requires j < |s| && s[j] == ' ' && ' ' !in s[..j]
    ensures FirstSpace(s) == j
  {
    if j > 0 {
      assert s[0] == s[..j][0];
      assert s[1..][..j - 1] == s[..j][1..];
      FirstSpaceAt(s[1..], j - 1);
    }
  }

  lemma SplitStep(p: string, rest: string)
    requires ' ' !in p
    ensures Split(p + " " + rest) == [p] + Split(rest)
  {
    var s := p + " " + rest;
    assert s[..|p|] == p;
    FirstSpaceAt(s, |p|);
    assert s[|p| + 1..] == rest;
  }

  /** Splitting a join of space-free parts gives the parts back. */
  lemma {:induction false} SplitJoin(parts: seq<string>)
    requires |parts| >= 1
    requires forall i :: 0 <= i < |parts| ==> ' ' !in parts[i]
    ensures Split(Join(parts, " ")) == parts
  {
    if |parts| > 1 {
      var rest := parts[1..];
      assert forall i :: 0 <= i < |rest| ==> ' ' !in rest[i] by {
        forall i | 0 <= i < |rest| ensures ' ' !in rest[i] {
          assert rest[i] == parts[i + 1];
        }
      }
      SplitJoin(rest);
      assert Join(parts, " ") == parts[0] + " " + Join(rest, " ");
      SplitStep(parts[0], Join(rest, " "));
      assert parts == [parts[0]] + rest;
    }
  }

  /**
   * When at least one argument is truthy and none of them contains a space,
   * splitting the result on spaces recovers exactly the rendered truthy arguments.
   */
  lemma ClassNamesSplit(args: seq<JsValue>)
    requires CountTruthy(args) >= 1
    requires forall v :: v in args ==> ' ' !in ToStr(v)
    ensures Split(ClassNames(args)) == Rendered(Truthies(args))
  {
    var t := Truthies(args);
    forall i | 0 <= i < |t| ensures ' ' !in Rendered(t)[i] {
      assert t[i] in args;
    }
    SplitJoin(Rendered(t));
  }
}
