/** Shared value types and the JavaScript / Java string semantics the rest of the model relies on. */
module Common {

  /** A value that may be absent: JavaScript `undefined`/`null`, a Java `null`. */
  datatype Option<+T> = None | Some(value: T)

  /** A value or the exception/error that replaced it. */
  datatype Result<+T, +E> = Ok(value: T) | Err(error: E)

  // ---------------------------------------------------------------------------
  // JavaScript truthiness and `||` over optional strings
  // ---------------------------------------------------------------------------

  /** `undefined`, `null` and `""` are falsy; every other string is truthy. */
  predicate Truthy(s: Option<string>) {
    s.Some? && s.value != ""
  }

  /** JavaScript `a || b` on two optional strings. */
  function Or(a: Option<string>, b: Option<string>): Option<string> {
    if Truthy(a) then a else b
  }

  /** JavaScript `a || "literal"`. */
  function OrElse(a: Option<string>, default: string): string {
    if Truthy(a) then a.value else default
  }

  /** JavaScript `flag || false` on an optional boolean. */
  function OrFalse(b: Option<bool>): bool {
    b == Some(true)
  }

  /** JavaScript `a || []`: an array, even an empty one, is truthy. */
  function SeqOrEmpty<T>(a: Option<seq<T>>): seq<T> {
    if a.Some? then a.value else []
  }

  // ---------------------------------------------------------------------------
  // JavaScript string length, whitespace and trim
  // ---------------------------------------------------------------------------

  /** `s.length` in JavaScript counts UTF-16 code units: a character beyond U+FFFF counts twice. */
  function JsLength(s: string): nat {
    if s == [] then 0 else (if s[0] as int > 0xFFFF then 2 else 1) + JsLength(s[1..])
  }

  lemma JsLengthBounds(s: string)
    ensures |s| <= JsLength(s) <= 2 * |s|
  {
  }

  /** ECMAScript WhiteSpace and LineTerminator code points: what `trim()` strips and `\s` matches. */
  predicate IsJsSpace(c: char) {
    var n := c as int;
    (0x09 <= n <= 0x0D) || n == 0x20 || n == 0xA0 || n == 0x1680 ||
    (0x2000 <= n <= 0x200A) || n == 0x2028 || n == 0x2029 || n == 0x202F ||
    n == 0x205F || n == 0x3000 || n == 0xFEFF
  }

  /** Every character is JavaScript whitespace (the empty string included). */
  predicate IsBlank(s: string) {
    forall i :: 0 <= i < |s| ==> IsJsSpace(s[i])
  }

  function TrimStart(s: string): string {
    if s != [] && IsJsSpace(s[0]) then TrimStart(s[1..]) else s
  }

  function TrimEnd(s: string): string {
    if s != [] && IsJsSpace(s[|s| - 1]) then TrimEnd(s[..|s| - 1]) else s
  }

  /** `String.prototype.trim`. */
  function Trim(s: string): string {
    TrimEnd(TrimStart(s))
  }

  lemma {:induction false} TrimStartEmptyIffBlank(s: string)
    ensures TrimStart(s) == "" <==> IsBlank(s)
  {
    if s != [] && IsJsSpace(s[0]) {
      TrimStartEmptyIffBlank(s[1..]);
      assert IsBlank(s) <==> IsBlank(s[1..]) by {
        if IsBlank(s[1..]) {
          forall i | 0 <= i < |s| ensures IsJsSpace(s[i]) {
            if i > 0 { assert s[i] == s[1..][i - 1]; }
          }
        }
        if IsBlank(s) {
          forall i | 0 <= i < |s[1..]| ensures IsJsSpace(s[1..][i]) {
            assert s[1..][i] == s[i + 1];
          }
        }
      }
    } else if s != [] {
      assert !IsJsSpace(s[0]);
    }
  }

  lemma {:induction false} TrimEndEmptyIffEmpty(s: string)
    ensures TrimEnd(s) == "" <==> IsBlank(s)
  {
    if s != [] && IsJsSpace(s[|s| - 1]) {
      var p := s[..|s| - 1];
      TrimEndEmptyIffEmpty(p);
      assert IsBlank(s) <==> IsBlank(p) by {
        if IsBlank(p) {
          forall i | 0 <= i < |s| ensures IsJsSpace(s[i]) {
            if i < |s| - 1 { assert s[i] == p[i]; }
          }
        }
      }
    } else if s != [] {
      assert !IsJsSpace(s[|s| - 1]);
    }
  }

  lemma TrimStartOfBlankIsEmpty(s: string)
    requires IsBlank(s)
    ensures TrimStart(s) == ""
  {
    TrimStartEmptyIffBlank(s);
  }

  /** `!s.trim()` in JavaScript holds exactly for the strings made of whitespace only. */
  lemma {:induction false} TrimEmptyIffBlank(s: string)
    ensures Trim(s) == "" <==> IsBlank(s)
  {
    TrimStartEmptyIffBlank(s);
    TrimEndEmptyIffEmpty(TrimStart(s));
    TrimStartHead(s);
    if TrimStart(s) != "" {
      assert !IsJsSpace(TrimStart(s)[0]);
    }
  }

  lemma {:induction false} TrimStartHead(s: string)
    ensures TrimStart(s) != "" ==> !IsJsSpace(TrimStart(s)[0])
  {
    if s != [] && IsJsSpace(s[0]) {
      TrimStartHead(s[1..]);
    }
  }

  /** TrimStart removes a whitespace prefix and keeps the rest. */
  lemma {:induction false} TrimStartSuffix(s: string)
    ensures |TrimStart(s)| <= |s|
    ensures TrimStart(s) == s[|s| - |TrimStart(s)|..]
    ensures forall i :: 0 <= i < |s| - |TrimStart(s)| ==> IsJsSpace(s[i])
  {
    if s != [] && IsJsSpace(s[0]) {
      TrimStartSuffix(s[1..]);
    }
  }

  // ---------------------------------------------------------------------------
  // Java whitespace (`String.isBlank`)
  // ---------------------------------------------------------------------------

  /** `Character.isWhitespace`: space separators except the non-breaking ones, and the ASCII controls 9-13, 28-31. */
  predicate IsJavaSpace(c: char) {
    var n := c as int;
    (0x09 <= n <= 0x0D) || (0x1C <= n <= 0x20) || n == 0x1680 ||
    (0x2000 <= n <= 0x2006) || (0x2008 <= n <= 0x200A) || n == 0x2028 ||
    n == 0x2029 || n == 0x205F || n == 0x3000
  }

  /** `String.isBlank`: empty or Java whitespace only. */
  predicate JavaIsBlank(s: string) {
    forall i :: 0 <= i < |s| ==> IsJavaSpace(s[i])
  }

  /** Java string concatenation with a possibly null operand: `null` prints as "null". */
  function JavaStr(s: Option<string>): string {
    if s.Some? then s.value else "null"
  }

  // ---------------------------------------------------------------------------
  // ASCII case mapping and substring search
  // ---------------------------------------------------------------------------

  function LowerChar(c: char): char {
    if 'A' <= c <= 'Z' then (c as int + 32) as char else c
  }

  function UpperChar(c: char): char {
    if 'a' <= c <= 'z' then (c as int - 32) as char else c
  }

  /** `toLowerCase` restricted to ASCII letters. */
  function Lower(s: string): (r: string)
    ensures |r| == |s| && forall i :: 0 <= i < |s| ==> r[i] == LowerChar(s[i])
  {
    if s == [] then [] else [LowerChar(s[0])] + Lower(s[1..])
  }

  /** `toUpperCase` restricted to ASCII letters. */
  function Upper(s: string): (r: string)
    ensures |r| == |s| && forall i :: 0 <= i < |s| ==> r[i] == UpperChar(s[i])
  {
    if s == [] then [] else [UpperChar(s[0])] + Upper(s[1..])
  }

  /** `s.includes(sub)`. */
  predicate Includes(s: string, sub: string) {
    exists i :: 0 <= i <= |s| && OccursAt(s, sub, i)
  }

  predicate OccursAt(s: string, sub: string, i: nat) {
    i + |sub| <= |s| && s[i..i + |sub|] == sub
  }

  /** The first index of `c` in `s`, as `indexOf` would give it. */
  function IndexOf<T(==)>(s: seq<T>, c: T): (r: Option<nat>)
    ensures r.None? <==> c !in s
    ensures r.Some? ==> r.value < |s| && s[r.value] == c && c !in s[..r.value]
  {
    if s == [] then None
    else if s[0] == c then Some(0)
    else match IndexOf(s[1..], c)
      case None => None
      case Some(i) => assert s[..i + 1] == [s[0]] + s[1..][..i]; Some(i + 1)
  }

  /** `array.splice(array.indexOf(x), 1)` guarded by `index > -1`: drops the first occurrence of `x`. */
  function RemoveFirst<T(==)>(s: seq<T>, x: T): seq<T> {
    match IndexOf(s, x)
    case None => s
    case Some(i) => s[..i] + s[i + 1..]
  }

  lemma RemoveFirstSpec<T>(s: seq<T>, x: T)
    ensures x !in s ==> RemoveFirst(s, x) == s
    ensures x in s ==> |RemoveFirst(s, x)| == |s| - 1
    ensures x in s ==> multiset(RemoveFirst(s, x)) == multiset(s) - multiset{x}
  {
    if x in s {
      var i := IndexOf(s, x).value;
      assert s == s[..i] + [x] + s[i + 1..];
      calc {
        multiset(s);
        multiset(s[..i]) + multiset{x} + multiset(s[i + 1..]);
      }
    }
  }

  /** Subscribing a callback that is not yet registered, then unsubscribing it, restores the registry. */
  lemma SubscribeThenUnsubscribe<T>(s: seq<T>, x: T)
    requires x !in s
    ensures RemoveFirst(s + [x], x) == s
  {
    assert IndexOf(s + [x], x) == Some(|s|) by {
      assert (s + [x])[..|s|] == s;
    }
    assert (s + [x])[..|s|] == s;
  }

  /** A decimal digit. */
  predicate IsDigit(c: char) {
    '0' <= c <= '9'
  }

  /** `${n}` for a non-negative integer: its decimal digits, without leading zeros. */
  function NatToString(n: nat): (r: string)
    ensures |r| >= 1 && forall i :: 0 <= i < |r| ==> IsDigit(r[i])
    ensures |r| > 1 ==> r[0] != '0'
    decreases n
  {
    var digit := ['0' + (n % 10) as char];
    if n < 10 then digit else NatToString(n / 10) + digit
  }

  // ---------------------------------------------------------------------------
  // Listener registries
  // ---------------------------------------------------------------------------

  /** A registered callback, identified by the order it was created in. */
  type ListenerId = nat

  /** One call of a listener with a payload. */
  datatype Delivery<P> = Delivery(listener: ListenerId, payload: P)

  /** `listeners.forEach(l => { try { l(payload) } catch {} })`: every listener once, in order. */
  function Deliveries<P>(listeners: seq<ListenerId>, payload: P): (r: seq<Delivery<P>>)
    ensures |r| == |listeners|
    ensures forall i :: 0 <= i < |r| ==> r[i] == Delivery(listeners[i], payload)
  {
    if listeners == [] then [] else [Delivery(listeners[0], payload)] + Deliveries(listeners[1..], payload)
  }

  // ---------------------------------------------------------------------------
  // Java `String.split` on a single character
  // ---------------------------------------------------------------------------

  /** All pieces between occurrences of `sep`, empty pieces included. */
  function SplitAll(s: string, sep: char): (r: seq<string>)
    ensures |r| >= 1
  {
    if s == [] then [""]
    else
      var rest := SplitAll(s[1..], sep);
      if s[0] == sep then [""] + rest else [[s[0]] + rest[0]] + rest[1..]
  }

  function DropTrailingEmpty(parts: seq<string>): seq<string> {
    if parts != [] && parts[|parts| - 1] == "" then DropTrailingEmpty(parts[..|parts| - 1]) else parts
  }

  /** `s.split(sep)` in Java: with no match the string itself, otherwise the pieces without trailing empty ones. */
  function JavaSplit(s: string, sep: char): seq<string> {
    if sep !in s then [s] else DropTrailingEmpty(SplitAll(s, sep))
  }

  /** `s.split("/")[1]`: None where Java throws ArrayIndexOutOfBoundsException. */
  function SecondPathComponent(s: string): Option<string> {
    var parts := JavaSplit(s, '/');
    if |parts| >= 2 then Some(parts[1]) else None
  }

  lemma {:induction false} SplitAllNoSep(s: string, sep: char)
    requires sep !in s
    ensures SplitAll(s, sep) == [s]
  {
    if s != [] {
      SplitAllNoSep(s[1..], sep);
      assert [s[0]] + s[1..] == s;
    }
  }

  lemma {:induction false} SplitAllAppend(a: string, sep: char, b: string)
    requires sep !in a
    ensures SplitAll(a + [sep] + b, sep) == [a] + SplitAll(b, sep)
  {
    if a == [] {
      assert a + [sep] + b == [sep] + b;
      assert ([sep] + b)[1..] == b;
    } else {
      assert (a + [sep] + b)[1..] == a[1..] + [sep] + b;
      SplitAllAppend(a[1..], sep, b);
      assert [a[0]] + a[1..] == a;
    }
  }

  /** The pieces joined with `sep` between them, as a template string with separators writes them. */
  function Join(parts: seq<string>, sep: char): string
    decreases |parts|
  {
    if |parts| == 0 then "" else if |parts| == 1 then parts[0] else parts[0] + [sep] + Join(parts[1..], sep)
  }

  /** Splitting undoes joining when no piece holds the separator. */
  lemma {:induction false} SplitJoin(parts: seq<string>, sep: char)
    requires |parts| >= 1 && forall i :: 0 <= i < |parts| ==> sep !in parts[i]
    ensures SplitAll(Join(parts, sep), sep) == parts
  {
    if |parts| == 1 {
      SplitAllNoSep(parts[0], sep);
    } else {
      SplitJoin(parts[1..], sep);
      SplitAllAppend(parts[0], sep, Join(parts[1..], sep));
      assert [parts[0]] + parts[1..] == parts;
    }
  }

  /** A Keycloak group path "/org" or "/org/..." yields "org" as its second component. */
  lemma GroupPathOrgName(org: string, rest: string)
    requires org != "" && '/' !in org
    requires rest == "" || rest[0] == '/'
    ensures SecondPathComponent("/" + org + rest) == Some(org)
  {
    if rest == "" {
      assert "/" + org + rest == "/" + org;
      var s := "/" + org;
      assert s == [] + ['/'] + org;
      SplitAllAppend([], '/', org);
      SplitAllNoSep(org, '/');
      assert SplitAll(s, '/') == ["", org];
      assert '/' in s by { assert s[0] == '/'; }
      assert DropTrailingEmpty(["", org]) == ["", org];
    } else {
      var s := "/" + org + rest;
      var tail := rest[1..];
      assert s == [] + ['/'] + (org + ['/'] + tail);
      SplitAllAppend([], '/', org + ['/'] + tail);
      SplitAllAppend(org, '/', tail);
      var all := SplitAll(s, '/');
      assert all == ["", org] + SplitAll(tail, '/');
      assert '/' in s by { assert s[0] == '/'; }
      DropTrailingKeepsNonEmptyPrefix(["", org], SplitAll(tail, '/'));
    }
  }

  lemma {:induction false} DropTrailingKeepsNonEmptyPrefix(p: seq<string>, q: seq<string>)
    requires |p| >= 1 && p[|p| - 1] != ""
    ensures |DropTrailingEmpty(p + q)| >= |p|
    ensures DropTrailingEmpty(p + q)[..|p|] == p
  {
    if q != [] && q[|q| - 1] == "" {
      assert (p + q)[..|p + q| - 1] == p + q[..|q| - 1];
      DropTrailingKeepsNonEmptyPrefix(p, q[..|q| - 1]);
    } else if q == [] {
      assert p + q == p;
    } else {
      assert (p + q)[|p + q| - 1] == q[|q| - 1];
      assert (p + q)[..|p|] == p;
    }
  }
}
