/** JavaScript value semantics that the row generator relies on: possibly-undefined
    values, truthiness, template-literal interpolation, and the few String and Array
    built-ins it calls (`replace` with a string pattern, `find`, `join`, `split`). */
module JsValues {

  /** A property that may be `undefined`: optional chaining yields None. JSON `null` is read
      as absent too. */
  datatype Option<+T> = None | Some(value: T)

  /** Truthiness of a string property: present and not the empty string. */
  predicate TruthyString(o: Option<string>) {
    o.Some? && o.value != ""
  }

  /** Truthiness of a numeric property: present and not zero. */
  predicate TruthyInt(o: Option<int>) {
    o.Some? && o.value != 0
  }

  /** Truthiness of a fractional numeric property: present and not zero. */
  predicate TruthyReal(o: Option<real>) {
    o.Some? && o.value != 0.0
  }

  /** Truthiness of a boolean property: present and `true`. */
  predicate TruthyBool(o: Option<bool>) {
    o == Some(true)
  }

  /** `${o}` for a string property: an absent value interpolates as "undefined". */
  function Text(o: Option<string>): string {
    match o
    case Some(s) => s
    case None => "undefined"
  }

  function DigitChar(d: nat): char
    requires d < 10
  {
    "0123456789"[d]
  }

  /** Decimal digits of a natural number, as `Number.prototype.toString()` writes an integer:
      at least one digit, and no leading zero unless the number is zero. */
  function NatText(n: nat): (r: string)
    ensures 0 < |r|
    ensures forall i :: 0 <= i < |r| ==> '0' <= r[i] <= '9'
    ensures r[0] == '0' <==> n == 0
    decreases n
  {
    if n < 10 then [DigitChar(n)] else NatText(n / 10) + [DigitChar(n % 10)]
  }

  /** The number a string of decimal digits denotes, most significant digit first. */
  function DecimalValue(s: string): int {
    if s == [] then 0 else DecimalValue(s[..|s| - 1]) * 10 + (s[|s| - 1] as int - '0' as int)
  }

  /** `NatText` writes exactly the digits of `n`: read back as a decimal, it denotes `n`. */
  lemma {:induction false} NatTextValue(n: nat)
    ensures DecimalValue(NatText(n)) == n
    decreases n
  {
    if n >= 10 {
      NatTextValue(n / 10);
      var t := NatText(n);
      assert t[..|t| - 1] == NatText(n / 10);
    }
  }

  /** `${o}` for an integer property: an absent value interpolates as "undefined". */
  function IntText(o: Option<int>): string {
    match o
    case None => "undefined"
    case Some(n) => if n < 0 then "-" + NatText(-n) else NatText(n)
  }

  /** `pat` occurs in `s` starting at index `i`. */
  predicate OccursAt(s: string, pat: string, i: int) {
    0 <= i && i + |pat| <= |s| && s[i..i + |pat|] == pat
  }

  /** The least index at or after `k` where `pat` occurs in `s`, if any. */
  function FirstOccurrenceFrom(s: string, pat: string, k: nat): (r: Option<nat>)
    ensures r.Some? ==> k <= r.value && OccursAt(s, pat, r.value)
    ensures r.Some? ==> forall j :: k <= j < r.value ==> !OccursAt(s, pat, j)
    ensures r.None? ==> forall j :: k <= j ==> !OccursAt(s, pat, j)
    decreases |s| - k
  {
    if k + |pat| > |s| then None
    else if s[k..k + |pat|] == pat then Some(k)
    else FirstOccurrenceFrom(s, pat, k + 1)
  }

  /** The least index where `pat` occurs in `s`, if any. */
  function FirstOccurrence(s: string, pat: string): (r: Option<nat>)
    ensures r.Some? ==> OccursAt(s, pat, r.value)
    ensures r.Some? ==> forall j :: 0 <= j < r.value ==> !OccursAt(s, pat, j)
    ensures r.None? ==> forall j :: !OccursAt(s, pat, j)
  {
    FirstOccurrenceFrom(s, pat, 0)
  }

  /** `s.replace(pat, rep)` with a string pattern: only the first occurrence is replaced, and
      a string without an occurrence is returned unchanged. */
  function ReplaceFirst(s: string, pat: string, rep: string): (r: string)
    ensures (forall j :: !OccursAt(s, pat, j)) ==> r == s
    ensures forall i :: OccursAt(s, pat, i) && (forall j :: 0 <= j < i ==> !OccursAt(s, pat, j)) ==>
      r == s[..i] + rep + s[i + |pat|..]
  {
    match FirstOccurrence(s, pat)
    case None => s
    case Some(i) =>
      assert forall k :: OccursAt(s, pat, k) && (forall j :: 0 <= j < k ==> !OccursAt(s, pat, j)) ==> k == i;
      s[..i] + rep + s[i + |pat|..]
  }

  /** The least index at or after `k` whose element is named `key`, if any. */
  function FindFrom<C>(cs: seq<C>, nameOf: C -> Option<string>, key: Option<string>, k: nat): (r: Option<nat>)
    ensures r.Some? ==> k <= r.value < |cs| && nameOf(cs[r.value]) == key
    ensures r.Some? ==> forall j :: k <= j < r.value ==> nameOf(cs[j]) != key
    ensures r.None? ==> forall j :: k <= j < |cs| ==> nameOf(cs[j]) != key
    decreases |cs| - k
  {
    if k >= |cs| then None
    else if nameOf(cs[k]) == key then Some(k)
    else FindFrom(cs, nameOf, key, k + 1)
  }

  /** `cs.find(c => nameOf(c) === key)`, as the index of the element found.
      Strict equality of two absent names holds, as `undefined === undefined` does. */
  function FindIndex<C>(cs: seq<C>, nameOf: C -> Option<string>, key: Option<string>): (r: Option<nat>)
    ensures r.Some? ==> r.value < |cs| && nameOf(cs[r.value]) == key
    ensures r.Some? ==> forall j :: 0 <= j < r.value ==> nameOf(cs[j]) != key
    ensures r.None? ==> forall j :: 0 <= j < |cs| ==> nameOf(cs[j]) != key
  {
    FindFrom(cs, nameOf, key, 0)
  }

  /** Total length of a list of strings. */
  function TotalLength(parts: seq<string>): nat {
    if |parts| == 0 then 0 else |parts[0]| + TotalLength(parts[1..])
  }

  /** `parts.join(sep)`. */
  function Join(parts: seq<string>, sep: string): string {
    if |parts| == 0 then ""
    else if |parts| == 1 then parts[0]
    else parts[0] + sep + Join(parts[1..], sep)
  }

  /** A join is empty for no parts; otherwise it holds every part and one separator between
      neighbours, starts with the first part and ends with the last. */
  lemma {:induction false} JoinShape(parts: seq<string>, sep: string)
    ensures |parts| == 0 ==> Join(parts, sep) == ""
    ensures |parts| > 0 ==> |Join(parts, sep)| == TotalLength(parts) + (|parts| - 1) * |sep|
    ensures |parts| > 0 ==> parts[0] <= Join(parts, sep)
    ensures |parts| > 0 ==> var r := Join(parts, sep);
      |parts[|parts| - 1]| <= |r| && r[|r| - |parts[|parts| - 1]|..] == parts[|parts| - 1]
  {
    if |parts| > 1 {
      JoinShape(parts[1..], sep);
      var rest := Join(parts[1..], sep);
      var r := parts[0] + sep + rest;
      assert parts[1..][|parts| - 2] == parts[|parts| - 1];
      assert r[|r| - |rest|..] == rest;
    }
  }

  /** `s.split('\n')`: the pieces between line breaks; the empty string splits into [""]. */
  function SplitLines(s: string): (r: seq<string>)
    ensures |r| > 0
  {
    if s == "" then [""]
    else
      var rest := SplitLines(s[1..]);
      if s[0] == '\n' then [""] + rest else [[s[0]] + rest[0]] + rest[1..]
  }

  lemma {:induction false} SplitLinesNoBreak(s: string)
    requires '\n' !in s
    ensures SplitLines(s) == [s]
  {
    if s != "" {
      SplitLinesNoBreak(s[1..]);
      assert [s[0]] + s[1..] == s;
    }
  }

  lemma {:induction false} SplitLinesAfterBreak(a: string, b: string)
    requires '\n' !in a
    ensures SplitLines(a + "\n" + b) == [a] + SplitLines(b)
  {
    if a == "" {
      assert a + "\n" + b == "\n" + b;
      assert ("\n" + b)[1..] == b;
    } else {
      assert (a + "\n" + b)[1..] == a[1..] + "\n" + b;
      assert (a + "\n" + b)[0] == a[0];
      SplitLinesAfterBreak(a[1..], b);
      assert [a[0]] + a[1..] == a;
    }
  }

  /** Splitting a newline-joined list on line breaks gives the list back, provided the list
      is not empty and no element holds a line break itself. */
  lemma {:induction false} SplitJoinLines(parts: seq<string>)
    requires |parts| > 0
    requires forall i :: 0 <= i < |parts| ==> '\n' !in parts[i]
    ensures SplitLines(Join(parts, "\n")) == parts
  {
    if |parts| == 1 {
      SplitLinesNoBreak(parts[0]);
    } else {
      SplitJoinLines(parts[1..]);
      SplitLinesAfterBreak(parts[0], Join(parts[1..], "\n"));
      assert [parts[0]] + parts[1..] == parts;
    }
  }
}
