/**
 * String helpers with Python's meaning: `str.isspace`, `str.strip`,
 * `sep.join(parts)`, and the byte-wise (BINARY) string order that SQLite's
 * ORDER BY uses on TEXT columns.
 */
module Text {

  /** The characters for which Python's `str.isspace()` is true. */
  predicate IsSpace(c: char) {
    c == ' ' || c == '\t' || c == '\n' || c == '\r' || c == '\U{B}' || c == '\U{C}'
    || ('\U{1C}' <= c <= '\U{1F}') || c == '\U{85}' || c == '\U{A0}' || c == '\U{1680}'
    || ('\U{2000}' <= c <= '\U{200A}') || c == '\U{2028}' || c == '\U{2029}'
    || c == '\U{202F}' || c == '\U{205F}' || c == '\U{3000}'
  }

  /** Neither end of `s` is white space: what `str.strip()` leaves behind. */
  predicate IsStripped(s: string) {
    s == [] || (!IsSpace(s[0]) && !IsSpace(s[|s| - 1]))
  }

  /** `s.strip()`: drops white space at both ends and nothing else. */
  function Strip(s: string): (r: string)
    ensures IsStripped(r)
    ensures |r| <= |s|
  {
    if s != [] && IsSpace(s[0]) then Strip(s[1..])
    else if s != [] && IsSpace(s[|s| - 1]) then Strip(s[..|s| - 1])
    else s
  }

  /** Stripping an already stripped string changes nothing (so `strip` is idempotent). */
  lemma StripStripped(s: string)
    requires IsStripped(s)
    ensures Strip(s) == s
  {
  }

  /** `r` is `s[i..j]` and everything of `s` outside that slice is white space. */
  predicate TrimmedSlice(s: string, r: string, i: nat, j: nat) {
    && i <= j <= |s|
    && r == s[i..j]
    && (forall k :: 0 <= k < i ==> IsSpace(s[k]))
    && (forall k :: j <= k < |s| ==> IsSpace(s[k]))
  }

  lemma TrimmedSliceCons(s: string, r: string, i: nat, j: nat)
    requires s != [] && IsSpace(s[0]) && TrimmedSlice(s[1..], r, i, j)
    ensures TrimmedSlice(s, r, i + 1, j + 1)
  {
    assert s[1..][i..j] == s[i + 1..j + 1];
    assert forall k :: 0 < k < |s| ==> s[k] == s[1..][k - 1];
  }

  lemma TrimmedSliceSnoc(s: string, r: string, i: nat, j: nat)
    requires s != [] && IsSpace(s[|s| - 1]) && TrimmedSlice(s[..|s| - 1], r, i, j)
    ensures TrimmedSlice(s, r, i, j)
  {
    assert s[..|s| - 1][i..j] == s[i..j];
    assert forall k :: 0 <= k < |s| - 1 ==> s[k] == s[..|s| - 1][k];
  }

  /**
   * `s.strip()` is a slice of `s` with only white space cut off either end;
   * with `IsStripped` this pins the result down to the one such slice.
   */
  lemma {:induction false} StripKeepsInterior(s: string)
    ensures exists i: nat, j: nat :: TrimmedSlice(s, Strip(s), i, j)
  {
    if s != [] && IsSpace(s[0]) {
      StripKeepsInterior(s[1..]);
      var i: nat, j: nat :| TrimmedSlice(s[1..], Strip(s[1..]), i, j);
      TrimmedSliceCons(s, Strip(s), i, j);
    } else if s != [] && IsSpace(s[|s| - 1]) {
      StripKeepsInterior(s[..|s| - 1]);
      var i: nat, j: nat :| TrimmedSlice(s[..|s| - 1], Strip(s[..|s| - 1]), i, j);
      TrimmedSliceSnoc(s, Strip(s), i, j);
    } else {
      assert TrimmedSlice(s, Strip(s), 0, |s|);
    }
  }

  /** `s.strip()` is empty exactly when every character of `s` is white space. */
  lemma {:induction false} StripEmpty(s: string)
    ensures Strip(s) == [] <==> forall i :: 0 <= i < |s| ==> IsSpace(s[i])
  {
    if s != [] && IsSpace(s[0]) {
      StripEmpty(s[1..]);
      assert forall i :: 0 < i < |s| ==> s[i] == s[1..][i - 1];
    } else if s != [] && IsSpace(s[|s| - 1]) {
      StripEmpty(s[..|s| - 1]);
      assert forall i :: 0 <= i < |s| - 1 ==> s[i] == s[..|s| - 1][i];
    }
  }

  /** `sep.join(parts)`. */
  function Join(parts: seq<string>, sep: string): string {
    if parts == [] then ""
    else if |parts| == 1 then parts[0]
    else parts[0] + sep + Join(parts[1..], sep)
  }

  /** Byte-wise order of strings (code-point order, which is also UTF-8 byte order). */
  predicate StrLe(a: string, b: string) {
    a == [] || (b != [] && (a[0] < b[0] || (a[0] == b[0] && StrLe(a[1..], b[1..]))))
  }

  lemma {:induction false} StrLeTotal(a: string, b: string)
    ensures StrLe(a, b) || StrLe(b, a)
  {
    if a != [] && b != [] && a[0] == b[0] {
      StrLeTotal(a[1..], b[1..]);
    }
  }

  lemma {:induction false} StrLeTransitive(a: string, b: string, c: string)
    requires StrLe(a, b) && StrLe(b, c)
    ensures StrLe(a, c)
  {
    if a != [] && a[0] == b[0] && b[0] == c[0] {
      StrLeTransitive(a[1..], b[1..], c[1..]);
    }
  }
}
