/** Texts as Go and PostgreSQL treat them, where a check depends on it. */
module Texts {

  /** unicode.IsSpace */
  predicate Space(c: char) {
    var n := c as int;
    9 <= n <= 13 || n == 0x20 || n == 0x85 || n == 0xa0 || n == 0x1680 || 0x2000 <= n <= 0x200a
    || n == 0x2028 || n == 0x2029 || n == 0x202f || n == 0x205f || n == 0x3000
  }

  function TrimLeft(s: string): string {
    if s != "" && Space(s[0]) then TrimLeft(s[1..]) else s
  }

  function TrimRight(s: string): string {
    if s != "" && Space(s[|s| - 1]) then TrimRight(s[..|s| - 1]) else s
  }

  /** strings.TrimSpace */
  function Trim(s: string): string {
    TrimRight(TrimLeft(s))
  }

  ghost predicate Blank(s: string) {
    forall i :: 0 <= i < |s| ==> Space(s[i])
  }

  /** `core` is `s` without its leading and trailing spaces. */
  ghost predicate CoreOf(s: string, core: string, low: nat, high: nat) {
    && low <= high <= |s| && core == s[low..high] && Blank(s[..low]) && Blank(s[high..])
    && (core != "" ==> !Space(core[0]) && !Space(core[|core| - 1]))
  }

  lemma {:induction false} LeftTrims(s: string) returns (low: nat)
    ensures low <= |s| && TrimLeft(s) == s[low..] && Blank(s[..low])
    ensures low < |s| ==> !Space(s[low])
  {
    if s != "" && Space(s[0]) {
      var rest := LeftTrims(s[1..]);
      low := rest + 1;
      assert s[1..][rest..] == s[low..];
      forall i | 0 <= i < low ensures Space(s[..low][i]) {
        assert i > 0 ==> s[1..][..rest][i - 1] == s[i];
      }
    } else {
      low := 0;
    }
  }

  lemma {:induction false} RightTrims(s: string) returns (high: nat)
    ensures high <= |s| && TrimRight(s) == s[..high] && Blank(s[high..])
    ensures high > 0 ==> !Space(s[high - 1])
  {
    if s != "" && Space(s[|s| - 1]) {
      var front := s[..|s| - 1];
      high := RightTrims(front);
      assert front[..high] == s[..high];
      forall i | 0 <= i < |s| - high ensures Space(s[high..][i]) {
        assert high + i < |front| ==> front[high..][i] == s[high + i];
      }
    } else {
      high := |s|;
      assert s[..high] == s;
    }
  }

  /** Trimming takes away the leading and the trailing spaces and nothing else. */
  lemma TrimIsCore(s: string)
    ensures exists low: nat, high: nat :: CoreOf(s, Trim(s), low, high)
  {
    var low := LeftTrims(s);
    var left := s[low..];
    var size := RightTrims(left);
    assert left[..size] == s[low..low + size] && left[size..] == s[low + size..];
    if size > 0 {
      assert Trim(s)[0] == s[low] && Trim(s)[size - 1] == left[size - 1];
    }
    assert CoreOf(s, Trim(s), low, low + size);
  }

  function LowerChar(c: char): char {
    if 'A' <= c <= 'Z' then (c as int + 32) as char else c
  }

  /** lower(text) */
  function Lower(s: string): string {
    seq(|s|, i requires 0 <= i < |s| => LowerChar(s[i]))
  }

  /** The bytes of a character in UTF-8. */
  function Width(c: char): nat {
    if c as int < 0x80 then 1 else if c as int < 0x800 then 2 else if c as int < 0x1_0000 then 3 else 4
  }

  /** len(text): its length in UTF-8. */
  function Bytes(s: string): nat {
    if s == "" then 0 else Bytes(s[..|s| - 1]) + Width(s[|s| - 1])
  }

  lemma {:induction false} BytesOf(s: string, width: nat)
    requires forall i :: 0 <= i < |s| ==> Width(s[i]) == width
    ensures Bytes(s) == width * |s|
  {
    if s != "" {
      BytesOf(s[..|s| - 1], width);
    }
  }
}
