/** Values and string helpers shared by every module of the model.

    JavaScript's loosely-typed values are narrowed here to what the client and the relay
    actually look at: an optional string stands for a property that may be `undefined`,
    `null` or a string, and `Truthy` is JavaScript's truthiness on it. */
module Common {

  datatype Option<+T> = None | Some(value: T)

  datatype Result<+T, +E> = Ok(value: T) | Err(error: E)

  /** JavaScript truthiness of a value that is a string or absent: `undefined`, `null` and `""` are falsy. */
  predicate Truthy(o: Option<string>) {
    o.Some? && o.value != ""
  }

  /** `a || b` on values that are strings or absent. */
  function Or(a: Option<string>, b: Option<string>): Option<string> {
    if Truthy(a) then a else b
  }

  /** `a || d` where the last alternative `d` is a string literal. */
  function OrElse(a: Option<string>, d: string): string {
    if Truthy(a) then a.value else d
  }

  // ---------------------------------------------------------------------------
  // Strings
  // ---------------------------------------------------------------------------

  /** `s.startsWith(p)` */
  predicate StartsWith(s: string, p: string) {
    |p| <= |s| && s[..|p|] == p
  }

  /** `s.endsWith(p)` */
  predicate EndsWith(s: string, p: string) {
    |p| <= |s| && s[|s| - |p|..] == p
  }

  /** `sub` occurs in `s` starting at index `i`. */
  predicate OccursAt(s: string, sub: string, i: int) {
    0 <= i <= |s| - |sub| && s[i..i + |sub|] == sub
  }

  /** `s.includes(sub)` */
  predicate Contains(s: string, sub: string) {
    exists i | 0 <= i <= |s| - |sub| :: OccursAt(s, sub, i)
  }

  lemma StartsWithConcat(p: string, t: string)
    ensures StartsWith(p + t, p)
  {
    assert (p + t)[..|p|] == p;
  }

  lemma StartsWithAt(s: string, p: string, i: nat)
    requires StartsWith(s, p) && i < |p|
    ensures s[i] == p[i]
  {
    assert s[..|p|][i] == s[i];
  }

  /** A string that differs from `p` at an index of `p` does not start with `p`. */
  lemma NotStartsWithAt(s: string, p: string, i: nat)
    requires i < |p| && (i >= |s| || s[i] != p[i])
    ensures !StartsWith(s, p)
  {
    if |p| <= |s| {
      assert s[..|p|][i] != p[i];
    }
  }

  /** A string `prefix + "_" + rest` whose prefix has no `/` cannot start with a pattern that
      has a `/` at index `m` and no `_` before it. */
  lemma SlashFreePrefixBlocks(prefix: string, rest: string, p: string, m: nat)
    requires forall i :: 0 <= i < |prefix| ==> prefix[i] != '/'
    requires m < |p| && p[m] == '/' && forall i :: 0 <= i < m ==> p[i] != '_'
    ensures !StartsWith(prefix + "_" + rest, p)
  {
    var s := prefix + "_" + rest;
    if |prefix| <= m {
      assert s[|prefix|] == '_';
      NotStartsWithAt(s, p, |prefix|);
    } else {
      assert s[m] == prefix[m];
      NotStartsWithAt(s, p, m);
    }
  }

  /** ASCII upper-case letters become lower case; everything else is kept. */
  function LowerChar(c: char): char {
    if 'A' <= c <= 'Z' then (c as int + 32) as char else c
  }

  /** `s.toLowerCase()`, restricted to ASCII letters. */
  function Lower(s: string): (r: string)
    ensures |r| == |s|
    ensures forall i :: 0 <= i < |s| ==> r[i] == LowerChar(s[i])
  {
    seq(|s|, i requires 0 <= i < |s| => LowerChar(s[i]))
  }

  lemma LowerConcat(a: string, b: string)
    ensures Lower(a + b) == Lower(a) + Lower(b)
  {
  }

  // ---------------------------------------------------------------------------
  // String-keyed dictionaries
  // ---------------------------------------------------------------------------

  /** Setting each `(name, value)` entry on `m` in order, a later entry overriding an earlier
      one: a sequence of `obj[name] = value` statements, or of `localStorage.setItem` calls. */
  function Assign(m: map<string, string>, entries: seq<(string, string)>): map<string, string>
    decreases |entries|
  {
    if entries == [] then m else Assign(m[entries[0].0 := entries[0].1], entries[1..])
  }

  /** An entry that no later entry overrides has its value afterwards. */
  lemma {:induction false} AssignLastWins(m: map<string, string>, entries: seq<(string, string)>, i: nat)
    requires i < |entries|
    requires forall j :: i < j < |entries| ==> entries[j].0 != entries[i].0
    ensures entries[i].0 in Assign(m, entries) && Assign(m, entries)[entries[i].0] == entries[i].1
    decreases |entries|
  {
    var m' := m[entries[0].0 := entries[0].1];
    if i == 0 {
      AssignKeeps(m', entries[1..], entries[0].0);
    } else {
      AssignLastWins(m', entries[1..], i - 1);
    }
  }

  /** A name that no entry sets keeps its presence and its value. */
  lemma {:induction false} AssignKeeps(m: map<string, string>, entries: seq<(string, string)>, name: string)
    requires forall j :: 0 <= j < |entries| ==> entries[j].0 != name
    ensures (name in Assign(m, entries) <==> name in m)
    ensures name in m ==> Assign(m, entries)[name] == m[name]
    decreases |entries|
  {
    if entries != [] {
      AssignKeeps(m[entries[0].0 := entries[0].1], entries[1..], name);
    }
  }

  /** Assigning `a` then `b` is assigning `a + b`. */
  lemma {:induction false} AssignConcat(m: map<string, string>, a: seq<(string, string)>, b: seq<(string, string)>)
    ensures Assign(m, a + b) == Assign(Assign(m, a), b)
    decreases |a|
  {
    if a == [] {
      assert a + b == b;
    } else {
      assert (a + b)[0] == a[0] && (a + b)[1..] == a[1..] + b;
      AssignConcat(m[a[0].0 := a[0].1], a[1..], b);
    }
  }

  /** One more entry at the end is one more update. */
  lemma AssignSnoc(m: map<string, string>, entries: seq<(string, string)>, e: (string, string))
    ensures Assign(m, entries + [e]) == Assign(m, entries)[e.0 := e.1]
  {
    AssignConcat(m, entries, [e]);
    assert [e][1..] == [];
  }

  // ---------------------------------------------------------------------------
  // Character classes, as JavaScript regular expressions define them
  // ---------------------------------------------------------------------------

  /** `\d` */
  predicate IsDigit(c: char) { '0' <= c <= '9' }

  /** `[a-z]` */
  predicate IsLowerLetter(c: char) { 'a' <= c <= 'z' }

  /** `[A-Z]` */
  predicate IsUpperLetter(c: char) { 'A' <= c <= 'Z' }

  /** `\s`: the white-space and line-terminator characters of ECMAScript. */
  predicate IsSpace(c: char) {
    c == '\t' || c == '\n' || c == '\U{000B}' || c == '\U{000C}' || c == '\r' || c == ' '
    || c == '\U{00A0}' || c == '\U{1680}' || '\U{2000}' <= c <= '\U{200A}'
    || c == '\U{2028}' || c == '\U{2029}' || c == '\U{202F}' || c == '\U{205F}'
    || c == '\U{3000}' || c == '\U{FEFF}'
  }

  /** The characters `.` does not match: ECMAScript line terminators. */
  predicate IsLineTerminator(c: char) {
    c == '\n' || c == '\r' || c == '\U{2028}' || c == '\U{2029}'
  }

  /** `s.trim()` is empty exactly when every character of `s` is white space. */
  predicate TrimmedEmpty(s: string) {
    forall i :: 0 <= i < |s| ==> IsSpace(s[i])
  }

  // ---------------------------------------------------------------------------
  // Decimal rendering of numbers (`String(n)` for a non-negative integer)
  // ---------------------------------------------------------------------------

  function DigitChar(d: nat): char
    requires d < 10
  {
    ('0' as int + d) as char
  }

  function DigitValue(c: char): nat
    requires IsDigit(c)
  {
    c as int - '0' as int
  }

  /** `String(n)`: the shortest decimal numeral of `n`. */
  function NatToString(n: nat): (s: string)
    ensures |s| >= 1
    ensures forall i :: 0 <= i < |s| ==> IsDigit(s[i])
    ensures |s| > 1 ==> s[0] != '0'
    decreases n
  {
    if n < 10 then [DigitChar(n)] else NatToString(n / 10) + [DigitChar(n % 10)]
  }

  /** The number a string of decimal digits denotes. */
  function DecimalValue(s: string): nat
    requires forall i :: 0 <= i < |s| ==> IsDigit(s[i])
  {
    if s == [] then 0 else 10 * DecimalValue(s[..|s| - 1]) + DigitValue(s[|s| - 1])
  }

  /** Reading back the numeral `String(n)` gives `n`. */
  lemma {:induction false} DecimalRoundTrip(n: nat)
    ensures DecimalValue(NatToString(n)) == n
    decreases n
  {
    if n >= 10 {
      var s := NatToString(n);
      assert s[..|s| - 1] == NatToString(n / 10);
      DecimalRoundTrip(n / 10);
    }
  }

  /** The number of digits `String(n)` has, for the ranges the client relies on. */
  lemma {:induction false} NatToStringLength(n: nat)
    ensures n < 10 ==> |NatToString(n)| == 1
    ensures 10 <= n < 100 ==> |NatToString(n)| == 2
    ensures 100 <= n < 1000 ==> |NatToString(n)| == 3
    ensures 1000 <= n < 10000 ==> |NatToString(n)| == 4
    decreases n
  {
    if n >= 10 {
      NatToStringLength(n / 10);
    }
  }

  /** `String(n).padStart(2, '0')` */
  function Pad2(n: nat): string {
    var s := NatToString(n);
    if |s| >= 2 then s else "0" + s
  }

  /** For `n < 100` the padded numeral has exactly two digits and denotes `n`. */
  lemma Pad2Digits(n: nat)
    requires n < 100
    ensures |Pad2(n)| == 2
    ensures forall i :: 0 <= i < |Pad2(n)| ==> IsDigit(Pad2(n)[i])
    ensures DecimalValue(Pad2(n)) == n
  {
    NatToStringLength(n);
    DecimalRoundTrip(n);
    var s := NatToString(n);
    if n < 10 {
      assert Pad2(n) == ['0', s[0]];
      assert DecimalValue(Pad2(n)[..1]) == 0;
    }
  }
}
