/** The text primitives the configuration code is built on. */
module Text {
  import opened Prelude

  /** White space in the C locale. */
  predicate IsSpace(c: char) {
    c == ' ' || '\t' <= c <= '\r'
  }

  function TrimLeft(s: string): string {
    if s != [] && IsSpace(s[0]) then TrimLeft(s[1..]) else s
  }

  function TrimRight(s: string): string {
    if s != [] && IsSpace(s[|s| - 1]) then TrimRight(s[..|s| - 1]) else s
  }

  function Trim(s: string): string {
    TrimRight(TrimLeft(s))
  }

  lemma {:induction false} TrimLeftStarts(s: string)
    ensures var r := TrimLeft(s); r == [] || !IsSpace(r[0])
  {
    if s != [] && IsSpace(s[0]) {
      TrimLeftStarts(s[1..]);
    }
  }

  lemma {:induction false} TrimRightEnds(s: string)
    ensures var r := TrimRight(s); (r == [] || !IsSpace(r[|r| - 1])) && (r != [] ==> s != [] && r[0] == s[0])
  {
    if s != [] && IsSpace(s[|s| - 1]) {
      TrimRightEnds(s[..|s| - 1]);
    }
  }

  /** Trimming leaves nothing more to trim. */
  lemma TrimTwice(s: string)
    ensures Trim(Trim(s)) == Trim(s)
  {
    TrimLeftStarts(s);
    TrimRightEnds(TrimLeft(s));
  }

  const WHITE := [' ', '\t', '\n', 11 as char, 12 as char, '\r']

  /** Whatever white space stands around a text that neither starts nor ends with any, trimming gives the text. */
  lemma {:induction false} TrimIs(pre: string, body: string, post: string)
    requires forall i :: 0 <= i < |pre| ==> pre[i] in WHITE
    requires forall i :: 0 <= i < |post| ==> post[i] in WHITE
    requires body != "" ==> body[0] !in WHITE && body[|body| - 1] !in WHITE
    ensures Trim(pre + body + post) == body
    decreases |pre| + |post|
  {
    var s := pre + body + post;
    if pre != "" {
      assert IsSpace(s[0]) && s[1..] == pre[1..] + body + post;
      TrimIs(pre[1..], body, post);
    } else if body == "" && post != "" {
      assert s == post && IsSpace(s[0]) && s[1..] == "" + body + post[1..];
      TrimIs("", body, post[1..]);
    } else if post != "" {
      assert !IsSpace(s[0]) && TrimLeft(s) == s;
      assert IsSpace(s[|s| - 1]) && s[..|s| - 1] == "" + body + post[..|post| - 1];
      TrimIs("", body, post[..|post| - 1]);
    } else {
      assert s == body;
    }
  }

  lemma TrimOf(s: string)
    requires s != "" ==> !IsSpace(s[0]) && !IsSpace(s[|s| - 1])
    ensures Trim(s) == s
  {
  }

  method SkipSpace(s: string) returns (b: nat)
    ensures b <= |s| && s[b..] == TrimLeft(s)
  {
    b := 0;
    while b < |s| && IsSpace(s[b])
      invariant b <= |s|
      invariant TrimLeft(s[b..]) == TrimLeft(s)
    {
      assert s[b..][1..] == s[b + 1..];
      b := b + 1;
    }
  }

  method TrimText(s: string) returns (r: string)
    ensures r == Trim(s)
  {
    var b := SkipSpace(s);
    var left := s[b..];
    var e := |left|;
    assert left[..e] == left;
    while e > 0 && IsSpace(left[e - 1])
      invariant 0 <= e <= |left|
      invariant TrimRight(left[..e]) == TrimRight(left)
    {
      assert left[..e][..e - 1] == left[..e - 1];
      e := e - 1;
    }
    r := left[..e];
  }

  predicate OccursAt(s: string, needle: string, k: nat) {
    k + |needle| <= |s| && s[k..k + |needle|] == needle
  }

  /** The first position at or after `from` where the needle occurs, or None. */
  function Find(s: string, needle: string, from: nat): Option<nat>
    decreases |s| - from
  {
    if from + |needle| > |s| then None
    else if OccursAt(s, needle, from) then Some(from)
    else if from == |s| then None
    else Find(s, needle, from + 1)
  }

  lemma {:induction false} FindMeans(s: string, needle: string, from: nat)
    ensures var r := Find(s, needle, from);
      && (r.Some? ==> from <= r.value && OccursAt(s, needle, r.value))
      && forall k: nat :: from <= k && (r.None? || k < r.value) ==> !OccursAt(s, needle, k)
    decreases |s| - from
  {
    if from + |needle| <= |s| && !OccursAt(s, needle, from) && from < |s| {
      FindMeans(s, needle, from + 1);
    }
  }

  /** What the first occurrence is. */
  lemma FindIs(s: string, needle: string, from: nat, at: nat)
    requires from <= at && OccursAt(s, needle, at)
    requires forall k: nat :: from <= k < at ==> !OccursAt(s, needle, k)
    ensures Find(s, needle, from) == Some(at)
  {
    FindMeans(s, needle, from);
  }

  predicate Contains(s: string, needle: string) {
    Find(s, needle, 0).Some?
  }

  predicate StartsWith(s: string, prefix: string) {
    prefix <= s
  }

  function DecimalNat(n: nat): string {
    (if n < 10 then "" else DecimalNat(n / 10)) + [('0' as int + n % 10) as char]
  }

  /** The value of a text of decimal digits. */
  function ValueOf(digits: string): int {
    if digits == "" then 0
    else ValueOf(digits[..|digits| - 1]) * 10 + (digits[|digits| - 1] as int - '0' as int)
  }

  lemma ValueMore(digits: string, d: char)
    ensures ValueOf(digits + [d]) == ValueOf(digits) * 10 + (d as int - '0' as int)
  {
    assert (digits + [d])[..|digits|] == digits;
  }

  function Digit(n: nat): (d: char)
    ensures '0' <= d <= '9' && d as int == '0' as int + n % 10
  {
    ('0' as int + n % 10) as char
  }

  lemma DecimalStep(n: nat)
    ensures DecimalNat(n) == (if n < 10 then "" else DecimalNat(n / 10)) + [Digit(n)]
  {
  }

  /** The number is written in decimal digits that have its value, without a leading zero. */
  lemma {:induction false} DecimalIsTheNumber(n: nat)
    ensures ValueOf(DecimalNat(n)) == n && DecimalNat(n) != ""
    ensures DecimalNat(n)[0] == '0' ==> n == 0
    ensures forall i :: 0 <= i < |DecimalNat(n)| ==> '0' <= DecimalNat(n)[i] <= '9'
  {
    hide DecimalNat, ValueOf, Digit;
    DecimalStep(n);
    assert ValueOf("") == 0 by { NoDigits(); }
    if n >= 10 {
      DecimalIsTheNumber(n / 10);
      ValueMore(DecimalNat(n / 10), Digit(n));
    } else {
      ValueMore("", Digit(n));
    }
  }

  lemma NoDigits()
    ensures ValueOf("") == 0
  {
  }
}
