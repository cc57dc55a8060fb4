/** The string operations of the JavaScript runtime that the wallet relies on:
    `split` with a one-character separator, `indexOf`, `includes`, `toLowerCase`,
    `trim`, the `^[0-9]+$` test and `URLSearchParams.get`. */
module Text {
  import opened Wrappers

  /** Position of the first `c` in `s`. */
  function IndexOf(s: string, c: char): (k: nat)
    requires c in s
    ensures k < |s| && s[k] == c
    ensures forall j :: 0 <= j < k ==> s[j] != c
  {
    if s[0] == c then 0 else 1 + IndexOf(s[1..], c)
  }

  /** The first occurrence of the separator sits right after a separator-free prefix. */
  lemma IndexOfAfterPrefix(a: string, sep: char, b: string)
    requires sep !in a
    ensures sep in a + [sep] + b && IndexOf(a + [sep] + b, sep) == |a|
  {
    var s := a + [sep] + b;
    assert s[|a|] == sep;
    assert forall i :: 0 <= i < |a| ==> s[i] == a[i] && s[i] != sep;
  }

  /** `s.split(sep)`: the pieces between the separators, in order. */
  function Split(s: string, sep: char): (parts: seq<string>)
    ensures |parts| >= 1
    ensures forall i :: 0 <= i < |parts| ==> sep !in parts[i]
    ensures |parts| == 1 <==> sep !in s
    decreases |s|
  {
    if sep !in s then [s]
    else
      var k := IndexOf(s, sep);
      [s[..k]] + Split(s[k + 1..], sep)
  }

  /** The first piece of a split is a prefix of the string. */
  lemma {:induction false} SplitHeadIsPrefix(s: string, sep: char)
    ensures Split(s, sep)[0] <= s
  {
    if sep in s {
      SplitUnfold(s, sep);
    }
  }

  /** `parts.join(sep)`. */
  function Join(parts: seq<string>, sep: char): string
    requires |parts| >= 1
  {
    if |parts| == 1 then parts[0] else parts[0] + [sep] + Join(parts[1..], sep)
  }

  /** Joining the pieces of a split gives back the string. */
  lemma {:induction false} JoinSplit(s: string, sep: char)
    ensures Join(Split(s, sep), sep) == s
    decreases |s|
  {
    if sep in s {
      var k := IndexOf(s, sep);
      var rest := s[k + 1..];
      SplitUnfold(s, sep);
      JoinSplit(rest, sep);
      JoinCons(s[..k], Split(rest, sep), sep);
    }
  }

  /** One step of `Split`: the piece before the first separator, then the split of the rest. */
  lemma SplitUnfold(s: string, sep: char)
    requires sep in s
    ensures s == s[..IndexOf(s, sep)] + [sep] + s[IndexOf(s, sep) + 1..]
    ensures Split(s, sep) == [s[..IndexOf(s, sep)]] + Split(s[IndexOf(s, sep) + 1..], sep)
  {
  }

  lemma JoinCons(head: string, tail: seq<string>, sep: char)
    requires |tail| >= 1
    ensures Join([head] + tail, sep) == head + [sep] + Join(tail, sep)
  {
    assert ([head] + tail)[1..] == tail;
  }

  /** A character none of the pieces holds, other than the separator, is not in their join. */
  lemma {:induction false} JoinAvoids(parts: seq<string>, sep: char, c: char)
    requires |parts| >= 1 && c != sep
    requires forall i :: 0 <= i < |parts| ==> c !in parts[i]
    ensures c !in Join(parts, sep)
  {
    if |parts| > 1 {
      assert forall i :: 0 <= i < |parts[1..]| ==> parts[1..][i] == parts[i + 1];
      JoinAvoids(parts[1..], sep, c);
    }
  }

  /** Splitting a join of separator-free pieces gives back the pieces. */
  lemma {:induction false} SplitJoin(parts: seq<string>, sep: char)
    requires |parts| >= 1
    requires forall i :: 0 <= i < |parts| ==> sep !in parts[i]
    ensures Split(Join(parts, sep), sep) == parts
  {
    if |parts| > 1 {
      var rest := Join(parts[1..], sep);
      assert Join(parts, sep) == parts[0] + [sep] + rest;
      assert forall i :: 0 <= i < |parts[1..]| ==> parts[1..][i] == parts[i + 1];
      SplitAtFirst(parts[0], sep, rest);
      SplitJoin(parts[1..], sep);
      assert parts == [parts[0]] + parts[1..];
    }
  }

  /** Splitting `a + sep + b` with `a` free of the separator yields `a` and the pieces of `b`. */
  lemma SplitAtFirst(a: string, sep: char, b: string)
    requires sep !in a
    ensures Split(a + [sep] + b, sep) == [a] + Split(b, sep)
  {
    var s := a + [sep] + b;
    IndexOfAfterPrefix(a, sep, b);
    assert s[..|a|] == a;
    assert s[|a| + 1..] == b;
  }

  /** `s.includes(sub)`. */
  predicate Contains(s: string, sub: string)
    decreases |s|
  {
    sub <= s || (|s| > 0 && Contains(s[1..], sub))
  }

  /** `sub` occurs in `s` starting at index `i`. */
  predicate OccursAt(s: string, sub: string, i: int) {
    0 <= i <= |s| - |sub| && s[i..i + |sub|] == sub
  }

  /** `includes` holds exactly when the substring occurs at some index. */
  lemma {:induction false} ContainsOccurs(s: string, sub: string)
    ensures Contains(s, sub) <==> exists i :: OccursAt(s, sub, i)
    decreases |s|
  {
    if sub <= s {
      assert OccursAt(s, sub, 0);
    } else if |s| > 0 {
      ContainsOccurs(s[1..], sub);
      if exists i :: OccursAt(s[1..], sub, i) {
        var i :| OccursAt(s[1..], sub, i);
        assert s[1..][i..i + |sub|] == s[i + 1..i + 1 + |sub|];
        assert OccursAt(s, sub, i + 1);
      }
      if exists i :: OccursAt(s, sub, i) {
        var i :| OccursAt(s, sub, i);
        assert s[1..][i - 1..i - 1 + |sub|] == s[i..i + |sub|];
        assert OccursAt(s[1..], sub, i - 1);
      }
    }
  }

  /** A substring is never longer than the string holding it. */
  lemma {:induction false} ContainsFits(s: string, sub: string)
    requires Contains(s, sub)
    ensures |sub| <= |s|
    decreases |s|
  {
    if !(sub <= s) {
      ContainsFits(s[1..], sub);
    }
  }

  /** `toLowerCase` restricted to the ASCII letters. */
  function LowerChar(c: char): char {
    if 'A' <= c <= 'Z' then (c as int + 32) as char else c
  }

  /** `toLowerCase`: no upper-case ASCII letter is left, and every other character stays. */
  function ToLower(s: string): (r: string)
    ensures |r| == |s|
    ensures forall i :: 0 <= i < |s| ==> r[i] == LowerChar(s[i])
    ensures forall i :: 0 <= i < |r| ==> !('A' <= r[i] <= 'Z')
    ensures forall i :: 0 <= i < |s| && !('A' <= s[i] <= 'Z') ==> r[i] == s[i]
  {
    seq(|s|, i requires 0 <= i < |s| => LowerChar(s[i]))
  }

  /** The `^[0-9]+$` test. */
  predicate IsDigits(s: string) {
    |s| > 0 && forall i :: 0 <= i < |s| ==> '0' <= s[i] <= '9'
  }

  /** A string passing the `^[0-9]+$` test holds no sign, no decimal point and no
      white space, so trimming leaves it as it is. */
  lemma DigitsAreUnsigned(s: string)
    requires IsDigits(s)
    ensures !Contains(s, "-") && !Contains(s, "+") && !Contains(s, ".")
    ensures Trim(s) == s
  {
    NoDigitOccurs(s, "-");
    NoDigitOccurs(s, "+");
    NoDigitOccurs(s, ".");
  }

  /** A single character other than a digit does not occur in a digit string. */
  lemma NoDigitOccurs(s: string, c: string)
    requires IsDigits(s) && |c| == 1 && !('0' <= c[0] <= '9')
    ensures !Contains(s, c)
  {
    ContainsOccurs(s, c);
  }

  /** The characters JavaScript's `trim` removes: white space and line terminators. */
  predicate IsWhiteSpace(c: char) {
    c as int in {9, 10, 11, 12, 13, 32, 0xA0, 0x1680, 0x2028, 0x2029, 0x202F, 0x205F, 0x3000, 0xFEFF}
    || 0x2000 <= c as int <= 0x200A
  }

  function LeadingWhiteSpace(s: string): (n: nat)
    ensures n <= |s|
    ensures forall k :: 0 <= k < n ==> IsWhiteSpace(s[k])
    ensures n < |s| ==> !IsWhiteSpace(s[n])
  {
    if |s| == 0 || !IsWhiteSpace(s[0]) then 0 else 1 + LeadingWhiteSpace(s[1..])
  }

  function TrailingWhiteSpaceStart(s: string): (n: nat)
    ensures n <= |s|
    ensures forall k :: n <= k < |s| ==> IsWhiteSpace(s[k])
    ensures n > 0 ==> !IsWhiteSpace(s[n - 1])
  {
    if |s| == 0 || !IsWhiteSpace(s[|s| - 1]) then |s| else TrailingWhiteSpaceStart(s[..|s| - 1])
  }

  /** `s.trim()`: the slice of `s` between its leading and its trailing white space. */
  function Trim(s: string): (r: string)
    ensures |r| == 0 || (!IsWhiteSpace(r[0]) && !IsWhiteSpace(r[|r| - 1]))
    ensures (forall k :: 0 <= k < |s| ==> !IsWhiteSpace(s[k])) ==> r == s
    ensures |r| <= |s|
    ensures exists lo, hi ::
      && 0 <= lo <= hi <= |s| && r == s[lo..hi]
      && (forall k :: 0 <= k < lo ==> IsWhiteSpace(s[k]))
      && (forall k :: hi <= k < |s| ==> IsWhiteSpace(s[k]))
  {
    var lo := LeadingWhiteSpace(s);
    if lo == |s| then
      assert s[lo..lo] == "";
      ""
    else
      var hi := TrailingWhiteSpaceStart(s);
      assert !IsWhiteSpace(s[lo]);
      s[lo..hi]
  }

  /** Trimming twice is trimming once. */
  lemma TrimIdempotent(s: string)
    ensures Trim(Trim(s)) == Trim(s)
  {
    var t := Trim(s);
    if |t| > 0 {
      assert !IsWhiteSpace(t[0]);
      assert !IsWhiteSpace(t[|t| - 1]);
      assert LeadingWhiteSpace(t) == 0;
      assert TrailingWhiteSpaceStart(t) == |t|;
    }
  }

  /** The name of one `name=value` pair of a query string: the text before the first `=`. */
  function ParamName(pair: string): string {
    Split(pair, '=')[0]
  }

  /** The value of one pair: the text after the first `=`, or "" when there is none. */
  function ParamValue(pair: string): string {
    if '=' in pair then pair[IndexOf(pair, '=') + 1..] else ""
  }

  function FirstParam(pairs: seq<string>, name: string): (r: Option<string>)
    ensures r.Some? ==> exists i ::
      && 0 <= i < |pairs| && pairs[i] != "" && ParamName(pairs[i]) == name && r.value == ParamValue(pairs[i])
      && (forall j :: 0 <= j < i ==> pairs[j] == "" || ParamName(pairs[j]) != name)
    ensures r.None? ==> forall i :: 0 <= i < |pairs| && pairs[i] != "" ==> ParamName(pairs[i]) != name
  {
    if pairs == [] then None
    else if pairs[0] != "" && ParamName(pairs[0]) == name then Some(ParamValue(pairs[0]))
    else
      var r := FirstParam(pairs[1..], name);
      assert forall i :: 1 <= i < |pairs| ==> pairs[i] == pairs[1..][i - 1];
      r
  }

  /** `new URLSearchParams(query).get(name)`: the value of the first pair called `name`,
      `None` when there is no such pair. Empty pairs (`&&`) are skipped. */
  function QueryParam(query: string, name: string): (r: Option<string>)
    ensures query == "" ==> r.None?
    ensures '&' !in query && query != "" ==> (r.Some? <==> ParamName(query) == name)
    ensures '&' !in query && r.Some? ==> r.value == ParamValue(query)
  {
    FirstParam(Split(query, '&'), name)
  }
}
