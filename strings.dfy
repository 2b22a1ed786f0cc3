/**
 * The few JavaScript string operations the site relies on, over `seq<char>`:
 * `includes`, `Array.prototype.join`, `split` and `replace` with a one-character pattern,
 * `toLowerCase` (Latin-1 letters) and the decimal text of an integer.
 */
module Strings {

  /** `sub` occurs in `s` starting at offset `i`. */
  predicate OccursAt(s: string, sub: string, i: int)
  {
    0 <= i <= |s| && sub <= s[i..]
  }

  /** `s.includes(sub)`: `sub` occurs in `s` at some offset (the empty string occurs everywhere). */
  predicate Contains(s: string, sub: string)
  {
    exists i :: 0 <= i <= |s| && OccursAt(s, sub, i)
  }

  /** An occurrence at a known offset is enough for `Contains`. */
  lemma ContainsAt(s: string, sub: string, i: nat)
    requires OccursAt(s, sub, i)
    ensures Contains(s, sub)
  {
  }

  /** Every `Contains` fact names an offset where `sub` occurs, and no text contains a longer one. */
  lemma ContainsOffset(s: string, sub: string) returns (i: nat)
    requires Contains(s, sub)
    ensures OccursAt(s, sub, i) && i + |sub| <= |s| && s[i..i + |sub|] == sub
  {
    i :| 0 <= i <= |s| && OccursAt(s, sub, i);
  }

  /** A text made of `before + sub + after` contains `sub`. */
  lemma ContainsInfix(before: string, sub: string, after: string)
    ensures Contains(before + sub + after, sub)
  {
    var s := before + sub + after;
    assert s[|before|..] == sub + after;
    ContainsAt(s, sub, |before|);
  }

  /** Containment is transitive: a text containing `mid` contains everything `mid` contains. */
  lemma ContainsTransitive(s: string, mid: string, sub: string)
    requires Contains(s, mid) && Contains(mid, sub)
    ensures Contains(s, sub)
  {
    var i := ContainsOffset(s, mid);
    var j := ContainsOffset(mid, sub);
    assert s[i..i + |mid|] == mid;
    forall k | 0 <= k < |sub| ensures s[i + j..][k] == sub[k] {
      assert s[i + j + k] == s[i..i + |mid|][j + k] == mid[j + k];
    }
    ContainsAt(s, sub, i + j);
  }

  /** `Array.prototype.join(sep)` on strings. */
  function Join(parts: seq<string>, sep: string): string
  {
    if |parts| == 0 then ""
    else if |parts| == 1 then parts[0]
    else parts[0] + sep + Join(parts[1..], sep)
  }

  /** The index of the first `c` in `s`. */
  function FirstIndex(s: string, c: char): (i: nat)
    requires c in s
    ensures i < |s| && s[i] == c && c !in s[..i]
  {
    if s[0] == c then 0 else 1 + FirstIndex(s[1..], c)
  }

  /** `s.split(c)` for a one-character separator: the pieces between consecutive `c`s. */
  function Split(s: string, c: char): (parts: seq<string>)
    ensures |parts| >= 1
    decreases |s|
  {
    if c in s then
      var i := FirstIndex(s, c);
      [s[..i]] + Split(s[i + 1..], c)
    else
      [s]
  }

  /** Splitting and joining back with the same separator gives the text back, and no piece holds the separator. */
  lemma {:induction false} SplitJoin(s: string, c: char)
    ensures Join(Split(s, c), [c]) == s
    ensures forall k :: 0 <= k < |Split(s, c)| ==> c !in Split(s, c)[k]
    decreases |s|
  {
    if c in s {
      var i := FirstIndex(s, c);
      var rest := Split(s[i + 1..], c);
      SplitJoin(s[i + 1..], c);
      assert Split(s, c) == [s[..i]] + rest;
      assert Join(Split(s, c), [c]) == s[..i] + [c] + Join(rest, [c]);
      assert s == s[..i] + [c] + s[i + 1..];
    }
  }

  /** The first piece of a split is the text before the first separator (all of it when there is none). */
  lemma SplitHead(s: string, c: char)
    ensures c in s ==> Split(s, c)[0] == s[..FirstIndex(s, c)]
    ensures c !in s ==> Split(s, c) == [s]
  {
  }

  /** Splitting at a first separator peels off the text before it. */
  lemma SplitAt(a: string, c: char, b: string)
    requires c !in a
    ensures Split(a + [c] + b, c) == [a] + Split(b, c)
  {
    var s := a + [c] + b;
    assert s[|a|] == c && s[..|a|] == a && s[|a| + 1..] == b;
  }

  /** The first piece of a join is a prefix of the joined text. */
  lemma JoinHead(parts: seq<string>, sep: string)
    requires |parts| >= 1
    ensures parts[0] <= Join(parts, sep)
  {
  }

  /** `s.replace(c, rep)` with a one-character pattern: only the first occurrence is replaced. */
  function ReplaceFirst(s: string, c: char, rep: string): (r: string)
    ensures c !in s ==> r == s
    ensures c in s ==> |r| == |s| - 1 + |rep|
    ensures c in s ==>
      exists i :: 0 <= i < |s| && s[i] == c && c !in s[..i] && r == s[..i] + rep + s[i + 1..]
  {
    if c in s then
      var i := FirstIndex(s, c);
      s[..i] + rep + s[i + 1..]
    else s
  }

  /** Replacing the first `c` leaves exactly one `c` fewer when the replacement holds none. */
  lemma ReplaceFirstRemovesOne(s: string, c: char, rep: string)
    requires c in s && c !in rep
    ensures multiset(ReplaceFirst(s, c, rep))[c] == multiset(s)[c] - 1
  {
    var i := FirstIndex(s, c);
    assert s == s[..i] + [c] + s[i + 1..];
    assert multiset(s) == multiset(s[..i]) + multiset{c} + multiset(s[i + 1..]);
  }

  /** `toLowerCase` on one character, for ASCII and the Latin-1 capitals (À..Þ except ×). */
  function LowerChar(ch: char): (r: char)
    ensures 'A' <= ch <= 'Z' ==> r as int == ch as int + 32
    ensures !('A' <= ch <= 'Z') && !('À' <= ch <= 'Þ') ==> r == ch
  {
    if 'A' <= ch <= 'Z' || ('À' <= ch <= 'Þ' && ch != '×') then (ch as int + 32) as char else ch
  }

  /** `s.toLowerCase()`, character by character (see `LowerChar`). */
  function ToLower(s: string): (r: string)
    ensures |r| == |s|
    ensures forall i :: 0 <= i < |s| ==> r[i] == LowerChar(s[i])
  {
    seq(|s|, i requires 0 <= i < |s| => LowerChar(s[i]))
  }

  /** The decimal text of a natural number, as `String(n)` writes it. */
  function NatToText(n: nat): (r: string)
    ensures |r| >= 1
    ensures forall i :: 0 <= i < |r| ==> '0' <= r[i] <= '9'
  {
    if n < 10 then ["0123456789"[n]] else NatToText(n / 10) + ["0123456789"[n % 10]]
  }

  /** The decimal text of an integer, with a leading '-' for negative numbers. */
  function IntToText(n: int): (r: string)
    ensures |r| >= 1
    ensures (r[0] == '-') <==> n < 0
  {
    if n < 0 then "-" + NatToText(-n) else NatToText(n)
  }

  /** Reading the digits back gives the number: the decimal text is faithful. */
  function DigitsValue(s: string): int
  {
    if s == [] then 0 else DigitsValue(s[..|s| - 1]) * 10 + (s[|s| - 1] as int - '0' as int)
  }

  lemma {:induction false} NatToTextValue(n: nat)
    ensures DigitsValue(NatToText(n)) == n
  {
    if n >= 10 {
      NatToTextValue(n / 10);
      var r := NatToText(n);
      assert r[..|r| - 1] == NatToText(n / 10);
    }
  }
}
