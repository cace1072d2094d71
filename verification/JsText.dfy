/** The few string operations of JavaScript that the modelled code relies on. */
module JsText {

  /** `s.length` counts UTF-16 code units: two for a character beyond the basic plane. */
  function Length(s: string): (n: nat)
    ensures |s| <= n && (n == 0 <==> s == "")
  {
    if s == "" then 0 else Length(s[..|s| - 1]) + (if s[|s| - 1] as int < 0x1_0000 then 1 else 2)
  }

  lemma {:induction false} LengthAppend(a: string, b: string)
    ensures Length(a + b) == Length(a) + Length(b)
    decreases |b|
  {
    if b == "" {
      assert a + b == a;
    } else {
      assert (a + b)[..|a + b| - 1] == a + b[..|b| - 1];
      LengthAppend(a, b[..|b| - 1]);
    }
  }

  predicate IsSpace(c: char) {
    || '\t' <= c <= '\r'
    || c == ' '
    || c in "\U{00A0}\U{1680}\U{2028}\U{2029}\U{202F}\U{205F}\U{3000}\U{FEFF}"
    || '\U{2000}' <= c <= '\U{200A}'
  }

  function TrimStart(s: string): string {
    if s != "" && IsSpace(s[0]) then TrimStart(s[1..]) else s
  }

  function TrimEnd(s: string): string {
    if s != "" && IsSpace(s[|s| - 1]) then TrimEnd(s[..|s| - 1]) else s
  }

  function Trim(s: string): string {
    TrimEnd(TrimStart(s))
  }

  predicate AllSpace(s: string) {
    forall i | 0 <= i < |s| :: IsSpace(s[i])
  }

  lemma {:induction false} TrimsStart(left: string, rest: string)
    requires AllSpace(left)
    ensures TrimStart(left + rest) == TrimStart(rest)
  {
    if left == "" {
      assert left + rest == rest;
    } else {
      assert (left + rest)[0] == left[0] && (left + rest)[1..] == left[1..] + rest;
      TrimsStart(left[1..], rest);
    }
  }

  lemma {:induction false} TrimsEnd(rest: string, right: string)
    requires AllSpace(right)
    ensures TrimEnd(rest + right) == TrimEnd(rest)
    decreases |right|
  {
    if right == "" {
      assert rest + right == rest;
    } else {
      var all, init := rest + right, right[..|right| - 1];
      assert all[|all| - 1] == right[|right| - 1] && all[..|all| - 1] == rest + init;
      TrimsEnd(rest, init);
    }
  }

  /** Trimming takes off all the space around a text, and nothing else. */
  lemma TrimExact(left: string, core: string, right: string)
    requires AllSpace(left) && AllSpace(right)
    requires core != "" ==> !IsSpace(core[0]) && !IsSpace(core[|core| - 1])
    ensures Trim(left + core + right) == core
  {
    hide IsSpace;
    assert left + core + right == left + (core + right);
    TrimsStart(left, core + right);
    if core == "" {
      assert core + right == right && right == right + "";
      TrimsStart(right, "");
    } else {
      assert (core + right)[0] == core[0];
      TrimsEnd(core, right);
    }
  }

  lemma LengthOne(c: char)
    ensures Length([c]) == if c <= '\U{FFFF}' then 1 else 2
  {
    assert [c][..0] == "";
  }

  function Clamp(i: int, length: nat): (r: nat)
    ensures r <= length
  {
    if i < 0 then (if i + length < 0 then 0 else i + length) else if i > length then length else i
  }

  /** `s.slice(from, to)`: negative positions count from the end, and all are clamped. */
  function Slice(s: string, from: int, to: int): string {
    var (a, b) := (Clamp(from, |s|), Clamp(to, |s|));
    if a <= b then s[a..b] else ""
  }

  /** A slice holds the characters from one position up to another; positions before the start
      or behind the end are cut off, and negative ones count from the end. */
  lemma SliceExact(s: string, from: int, to: int)
    ensures 0 <= from <= to <= |s| ==> Slice(s, from, to) == s[from..to]
    ensures 0 <= to <= from ==> Slice(s, from, to) == ""
    ensures to > |s| ==> Slice(s, from, to) == Slice(s, from, |s|)
    ensures -|s| <= to < 0 ==> Slice(s, from, to) == Slice(s, from, |s| + to)
    ensures -|s| <= from < 0 ==> Slice(s, from, to) == Slice(s, |s| + from, to)
    ensures to < -|s| ==> Slice(s, from, to) == ""
    ensures from < -|s| ==> Slice(s, from, to) == Slice(s, 0, to)
  {
  }

  predicate EndsWith(s: string, end: string) {
    |end| <= |s| && s[|s| - |end|..] == end
  }

  lemma StartsWithOne(s: string, start: string)
    requires |start| == 1
    ensures start <= s <==> s != "" && s[0] == start[0]
  {
  }

  lemma StartsWithTwo(s: string, start: string)
    requires |start| == 2
    ensures start <= s <==> |s| > 1 && s[0] == start[0] && s[1] == start[1]
  {
  }

  lemma EndsWithOne(s: string, end: string)
    requires |end| == 1
    ensures EndsWith(s, end) <==> s != "" && s[|s| - 1] == end[0]
  {
  }

  predicate Includes(s: string, c: char) {
    c in s
  }
}
