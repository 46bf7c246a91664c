/** JavaScript values and the few JavaScript operators the server, the registry and the
    CLI client apply to them: truthiness, `a || b`, property reads, template-string
    conversion and `String.prototype.trim`. */
module JsValues {

  datatype Option<+T> = None | Some(value: T)

  datatype Result<+T, +E> = Ok(value: T) | Err(error: E)

  /** A JSON value, as carried by a request body or a WebSocket message.
      Numbers are integers; object key order is not kept. */
  datatype Value =
    | Null
    | Bool(b: bool)
    | Num(n: int)
    | Str(s: string)
    | Arr(items: seq<Value>)
    | Obj(fields: map<string, Value>)

  /** JavaScript truthiness; `None` stands for `undefined`. */
  predicate Truthy(v: Option<Value>) {
    match v
    case None => false
    case Some(Null) => false
    case Some(Bool(b)) => b
    case Some(Num(n)) => n != 0
    case Some(Str(s)) => s != ""
    case Some(_) => true
  }

  /** `a || b` where `b` is a defined value. */
  function Or(a: Option<Value>, b: Value): (r: Value)
    ensures Truthy(a) ==> Some(r) == a
    ensures !Truthy(a) ==> r == b
  {
    if Truthy(a) then a.value else b
  }

  /** Reading property `key` of a value that is not `null`: only objects carry the
      properties read in this model, anything else yields `undefined`. */
  function Prop(v: Value, key: string): (r: Option<Value>)
    ensures r.Some? <==> v.Obj? && key in v.fields
    ensures r.Some? ==> r.value == v.fields[key]
  {
    if v.Obj? && key in v.fields then Some(v.fields[key]) else None
  }

  /** Optional chaining `v?.key` on a possibly undefined value. */
  function PropOf(v: Option<Value>, key: string): (r: Option<Value>)
    ensures v.None? ==> r.None?
    ensures v.Some? ==> r == Prop(v.value, key)
  {
    if v.None? then None else Prop(v.value, key)
  }

  predicate IsDigit(c: char) {
    '0' <= c <= '9'
  }

  function DigitChar(d: nat): (c: char)
    requires d < 10
    ensures IsDigit(c) && c as int - '0' as int == d
  {
    ['0', '1', '2', '3', '4', '5', '6', '7', '8', '9'][d]
  }

  /** Decimal notation of a natural number, as `String(n)` prints it. */
  function NatText(n: nat): (r: string)
    ensures |r| > 0
    ensures forall i :: 0 <= i < |r| ==> IsDigit(r[i])
    ensures |r| > 1 ==> r[0] != '0'
  {
    if n < 10 then [DigitChar(n)] else NatText(n / 10) + [DigitChar(n % 10)]
  }

  /** Value of a string of decimal digits. */
  function DigitsValue(s: string): (n: nat)
    requires forall i :: 0 <= i < |s| ==> IsDigit(s[i])
  {
    if s == [] then 0
    else
      assert IsDigit(s[|s| - 1]);
      10 * DigitsValue(s[..|s| - 1]) + (s[|s| - 1] as int - '0' as int)
  }

  /** Reading back the decimal notation gives the number. */
  lemma {:induction false} NatTextValue(n: nat)
    ensures DigitsValue(NatText(n)) == n
  {
    if n >= 10 {
      var r := NatText(n);
      assert r[..|r| - 1] == NatText(n / 10);
      NatTextValue(n / 10);
    }
  }

  function IntText(n: int): (r: string)
    ensures |r| > 0
    ensures n < 0 <==> r[0] == '-'
  {
    if n < 0 then "-" + NatText(-n) else NatText(n)
  }

  /** Whether the template-string conversion `${v}` throws a TypeError. An object
      whose own `toString` property is plain data has no callable conversion left
      (`toString` is not a function and the inherited `valueOf` returns the object
      itself), and an array throws when `join` meets such an element. */
  predicate TextThrows(v: Value)
    decreases v
  {
    match v
    case Obj(fields) => "toString" in fields
    case Arr(items) => exists i :: 0 <= i < |items| && TextThrows(items[i])
    case _ => false
  }

  /** Template-string conversion `${v}` of a JSON value; `None` where it throws. */
  function Text(v: Value): (r: Option<string>)
    decreases v, 1
    ensures r.None? <==> TextThrows(v)
    ensures v.Str? ==> r == Some(v.s)
    ensures v.Num? ==> r == Some(IntText(v.n))
    ensures v.Obj? && r.Some? ==> r.value == "[object Object]"
  {
    match v
    case Null => Some("null")
    case Bool(b) => Some(if b then "true" else "false")
    case Num(n) => Some(IntText(n))
    case Str(s) => Some(s)
    case Arr(items) => JoinText(items)
    case Obj(fields) => if "toString" in fields then None else Some("[object Object]")
  }

  /** `Array.prototype.join(",")`, which prints `null` elements as empty text and
      throws when converting one of the other elements throws. */
  function JoinText(items: seq<Value>): (r: Option<string>)
    decreases items, 0
    ensures r.None? <==> exists i :: 0 <= i < |items| && TextThrows(items[i])
  {
    if items == [] then Some("")
    else
      var head := if items[0].Null? then Some("") else Text(items[0]);
      if |items| == 1 then head
      else
        var tail := JoinText(items[1..]);
        assert forall i :: 1 <= i < |items| ==> items[i] == items[1..][i - 1];
        if head.None? || tail.None? then None else Some(head.value + "," + tail.value)
  }

  /** The characters `String.prototype.trim` removes: white space and line terminators. */
  predicate IsJsSpace(c: char) {
    || c == ' ' || ('\t' <= c <= '\r') || c == '\U{00A0}' || c == '\U{1680}'
    || ('\U{2000}' <= c <= '\U{200A}') || c == '\U{2028}' || c == '\U{2029}'
    || c == '\U{202F}' || c == '\U{205F}' || c == '\U{3000}' || c == '\U{FEFF}'
  }

  /** Every character of `s` is white space. */
  predicate AllJsSpace(s: string) {
    forall i :: 0 <= i < |s| ==> IsJsSpace(s[i])
  }

  /** `s.trimStart()`: a suffix of `s` that starts with no white space. */
  function TrimStart(s: string): (r: string)
    ensures |r| <= |s| && r == s[|s| - |r|..]
    ensures r != [] ==> !IsJsSpace(r[0])
  {
    if s != [] && IsJsSpace(s[0]) then TrimStart(s[1..]) else s
  }

  /** `s.trimEnd()`: a prefix of `s` that ends with no white space. */
  function TrimEnd(s: string): (r: string)
    ensures |r| <= |s| && r == s[..|r|]
    ensures r != [] ==> !IsJsSpace(r[|r| - 1])
  {
    if s != [] && IsJsSpace(s[|s| - 1]) then TrimEnd(s[..|s| - 1]) else s
  }

  /** What `trimStart` removes is white space. */
  lemma {:induction false} TrimStartDropsSpace(s: string)
    ensures forall i :: 0 <= i < |s| - |TrimStart(s)| ==> IsJsSpace(s[i])
  {
    if s != [] && IsJsSpace(s[0]) {
      TrimStartDropsSpace(s[1..]);
      forall i | 1 <= i < |s| - |TrimStart(s)| ensures IsJsSpace(s[i]) {
        assert s[i] == s[1..][i - 1];
      }
    }
  }

  /** What `trimEnd` removes is white space. */
  lemma {:induction false} TrimEndDropsSpace(s: string)
    ensures forall i :: |TrimEnd(s)| <= i < |s| ==> IsJsSpace(s[i])
  {
    if s != [] && IsJsSpace(s[|s| - 1]) {
      TrimEndDropsSpace(s[..|s| - 1]);
      forall i | |TrimEnd(s)| <= i < |s| - 1 ensures IsJsSpace(s[i]) {
        assert s[i] == s[..|s| - 1][i];
      }
    }
  }

  /** What is left after `trimStart` and `trimEnd` is a slice of the input. */
  lemma TrimIsSlice(s: string)
    ensures var t := TrimStart(s);
            var r := TrimEnd(t);
            |s| - |t| + |r| <= |s| && r == s[|s| - |t|..|s| - |t| + |r|]
  {
    SliceOfSlice(s, TrimStart(s), TrimEnd(TrimStart(s)));
  }

  /** A prefix `r` of a suffix `t` of `s` is a slice of `s`. */
  lemma SliceOfSlice(s: string, t: string, r: string)
    requires |t| <= |s| && t == s[|s| - |t|..]
    requires |r| <= |t| && r == t[..|r|]
    ensures |s| - |t| + |r| <= |s| && r == s[|s| - |t|..|s| - |t| + |r|]
  {
    var i := |s| - |t|;
    forall j | 0 <= j < |r| ensures r[j] == s[i..i + |r|][j] {
      assert r[j] == t[j] == s[i + j];
    }
  }

  /** What `trimEnd` removes after `trimStart` is white space of the input. */
  lemma TrimTailIsSpace(s: string)
    ensures var t := TrimStart(s);
            var r := TrimEnd(t);
            forall k :: |s| - |t| + |r| <= k < |s| ==> IsJsSpace(s[k])
  {
    var t := TrimStart(s);
    var r := TrimEnd(t);
    TrimEndDropsSpace(t);
    forall k | |s| - |t| + |r| <= k < |s| ensures IsJsSpace(s[k]) {
      assert s[k] == t[k - (|s| - |t|)];
    }
  }

  /** Neither end of a trimmed string is white space. */
  lemma TrimEndsNotSpace(s: string)
    ensures var r := TrimEnd(TrimStart(s));
            r != [] ==> !IsJsSpace(r[0]) && !IsJsSpace(r[|r| - 1])
  {
    var t := TrimStart(s);
    var r := TrimEnd(t);
    if r != [] {
      assert r[0] == t[0];
    }
  }

  /** `s` is `r` with nothing but white space around it, `r` starting at offset `i`. */
  predicate IsPaddingOf(s: string, i: nat, r: string) {
    i + |r| <= |s| && r == s[i..i + |r|] && AllJsSpace(s[..i]) && AllJsSpace(s[i + |r|..])
  }

  /** A prefix that is white space character by character is all white space. */
  lemma SpacePrefix(s: string, i: nat)
    requires i <= |s| && forall k :: 0 <= k < i ==> IsJsSpace(s[k])
    ensures AllJsSpace(s[..i])
  {
    assert forall k :: 0 <= k < i ==> s[..i][k] == s[k];
  }

  /** A suffix that is white space character by character is all white space. */
  lemma SpaceSuffix(s: string, j: nat)
    requires j <= |s| && forall k :: j <= k < |s| ==> IsJsSpace(s[k])
    ensures AllJsSpace(s[j..])
  {
    assert forall k :: 0 <= k < |s| - j ==> s[j..][k] == s[j + k];
  }

  /** `trimEnd` after `trimStart` leaves a slice with only white space around it. */
  lemma TrimIsPadding(s: string)
    ensures IsPaddingOf(s, |s| - |TrimStart(s)|, TrimEnd(TrimStart(s)))
  {
    var i := |s| - |TrimStart(s)|;
    TrimIsSlice(s);
    TrimStartDropsSpace(s);
    SpacePrefix(s, i);
    TrimTailIsSpace(s);
    SpaceSuffix(s, i + |TrimEnd(TrimStart(s))|);
  }

  /** `s.trim()`: `s` is `r` with white space on either side. */
  function Trim(s: string): (r: string)
    ensures IsPaddingOf(s, |s| - |TrimStart(s)|, r)
    ensures r != [] ==> !IsJsSpace(r[0]) && !IsJsSpace(r[|r| - 1])
  {
    TrimIsPadding(s);
    TrimEndsNotSpace(s);
    TrimEnd(TrimStart(s))
  }

  /** A string with no white space at either end is its own trim. */
  lemma TrimOfTrimmed(s: string)
    requires s != [] && !IsJsSpace(s[0]) && !IsJsSpace(s[|s| - 1])
    ensures Trim(s) == s
  {
  }

  /** Trimming twice is trimming once. */
  lemma TrimIdempotent(s: string)
    ensures Trim(Trim(s)) == Trim(s)
  {
    if Trim(s) != [] {
      TrimOfTrimmed(Trim(s));
    }
  }

  /** Leading white space is what `trimStart` removes. */
  lemma {:induction false} TrimStartSkipsSpace(pre: string, s: string)
    requires AllJsSpace(pre)
    ensures TrimStart(pre + s) == TrimStart(s)
  {
    if pre != [] {
      assert (pre + s)[0] == pre[0];
      assert (pre + s)[1..] == pre[1..] + s;
      TrimStartSkipsSpace(pre[1..], s);
    } else {
      assert pre + s == s;
    }
  }

  /** White space appended to a string stays behind the string's first non-space
      character, or disappears with the rest when there is none. */
  lemma {:induction false} TrimStartAppendSpace(s: string, post: string)
    requires AllJsSpace(post)
    ensures TrimStart(s + post) == if TrimStart(s) == [] then [] else TrimStart(s) + post
  {
    if s == [] {
      assert [] + post == post + [];
      TrimStartSkipsSpace(post, []);
    } else if IsJsSpace(s[0]) {
      assert (s + post)[1..] == s[1..] + post;
      TrimStartAppendSpace(s[1..], post);
    }
  }

  /** Trailing white space is what `trimEnd` removes. */
  lemma {:induction false} TrimEndSkipsSpace(s: string, post: string)
    requires AllJsSpace(post)
    ensures TrimEnd(s + post) == TrimEnd(s)
    decreases |post|
  {
    if post != [] {
      var shorter := post[..|post| - 1];
      assert (s + post)[..|s + post| - 1] == s + shorter;
      TrimEndSkipsSpace(s, shorter);
    } else {
      assert s + post == s;
    }
  }

  /** Leading padding in front of a concatenation is removed by `trimStart`. */
  lemma TrimStartPadded(pre: string, s: string, post: string)
    requires AllJsSpace(pre)
    ensures TrimStart(pre + s + post) == TrimStart(s + post)
  {
    ConcatAssoc(pre, s, post);
    TrimStartSkipsSpace(pre, s + post);
  }

  lemma ConcatAssoc(a: string, b: string, c: string)
    ensures a + b + c == a + (b + c)
  {
  }

  /** Trailing padding survives `trimStart` only to be removed by `trimEnd`. */
  lemma TrimEndPadded(s: string, post: string)
    requires AllJsSpace(post)
    ensures TrimEnd(TrimStart(s + post)) == TrimEnd(TrimStart(s))
  {
    TrimStartAppendSpace(s, post);
    var t := TrimStart(s);
    if t != [] {
      TrimEndSkipsSpace(t, post);
    }
  }

  /** White space added on either side of a string does not change its trim. */
  lemma TrimPadded(pre: string, s: string, post: string)
    requires AllJsSpace(pre) && AllJsSpace(post)
    ensures Trim(pre + s + post) == Trim(s)
  {
    TrimStartPadded(pre, s, post);
    TrimEndPadded(s, post);
  }

  function Min(a: int, b: int): int {
    if a <= b then a else b
  }

  /** `s.substring(0, n)` for `n >= 0`. */
  function Prefix(s: string, n: nat): (r: string)
    ensures |r| == Min(n, |s|) && r == s[..|r|]
  {
    if n < |s| then s[..n] else s
  }
}
