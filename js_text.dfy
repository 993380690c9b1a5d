/** The JavaScript string operations the app relies on, over `seq<char>`:
    `trim`, `includes`, `startsWith` and `toLowerCase`. */
module JsText {

  /** The ECMAScript WhiteSpace and LineTerminator code points: what `String.prototype.trim` strips. */
  predicate IsJsWhitespace(c: char)
  {
    c == '\t' || c == '\n' || c == '\U{B}' || c == '\U{C}' || c == '\r' || c == ' '
    || c == '\U{A0}' || c == '\U{1680}' || ('\U{2000}' <= c <= '\U{200A}')
    || c == '\U{2028}' || c == '\U{2029}' || c == '\U{202F}' || c == '\U{205F}'
    || c == '\U{3000}' || c == '\U{FEFF}'
  }

  predicate AllWhitespace(s: string)
  {
    forall i :: 0 <= i < |s| ==> IsJsWhitespace(s[i])
  }

  function TrimStart(s: string): string
  {
    if s != [] && IsJsWhitespace(s[0]) then TrimStart(s[1..]) else s
  }

  function TrimEnd(s: string): string
  {
    if s != [] && IsJsWhitespace(s[|s| - 1]) then TrimEnd(s[..|s| - 1]) else s
  }

  /** `String.prototype.trim`. */
  function Trim(s: string): string
  {
    TrimEnd(TrimStart(s))
  }

  lemma {:induction false} TrimStartEmptyIff(s: string)
    ensures TrimStart(s) == [] <==> AllWhitespace(s)
  {
    if s != [] && IsJsWhitespace(s[0]) {
      TrimStartEmptyIff(s[1..]);
      assert AllWhitespace(s) <==> AllWhitespace(s[1..]) by {
        if AllWhitespace(s[1..]) {
          forall i | 0 <= i < |s| ensures IsJsWhitespace(s[i]) {
            if i > 0 { assert s[i] == s[1..][i - 1]; }
          }
        }
      }
    }
  }

  lemma {:induction false} TrimEndEmptyIff(s: string)
    ensures TrimEnd(s) == [] <==> AllWhitespace(s)
  {
    if s != [] && IsJsWhitespace(s[|s| - 1]) {
      var t := s[..|s| - 1];
      TrimEndEmptyIff(t);
      assert AllWhitespace(s) <==> AllWhitespace(t) by {
        if AllWhitespace(t) {
          forall i | 0 <= i < |s| ensures IsJsWhitespace(s[i]) {
            if i < |s| - 1 { assert s[i] == t[i]; }
          }
        }
      }
    }
  }

  /** A string trims to nothing exactly when every character of it is white space. */
  lemma TrimEmptyIff(s: string)
    ensures Trim(s) == [] <==> AllWhitespace(s)
  {
    var t := TrimStart(s);
    TrimStartEmptyIff(s);
    TrimEndEmptyIff(t);
    if t != [] {
      TrimStartHead(s);
      assert !AllWhitespace(t) by { assert !IsJsWhitespace(t[0]); }
    }
  }

  lemma {:induction false} TrimStartHead(s: string)
    ensures TrimStart(s) != [] ==> !IsJsWhitespace(TrimStart(s)[0])
  {
    if s != [] && IsJsWhitespace(s[0]) {
      TrimStartHead(s[1..]);
    }
  }

  /** `String.prototype.startsWith`. */
  predicate StartsWith(s: string, prefix: string)
  {
    |prefix| <= |s| && s[..|prefix|] == prefix
  }

  /** `String.prototype.includes`: `k` occurs in `s` as a contiguous block (the empty string occurs everywhere). */
  predicate Includes(s: string, k: string)
    decreases |s|
  {
    StartsWith(s, k) || (s != [] && Includes(s[1..], k))
  }

  /** `k` occurs in `s` starting at position `i`. */
  predicate OccursAt(s: string, k: string, i: int)
  {
    0 <= i <= |s| - |k| && s[i..i + |k|] == k
  }

  /** `Includes` holds exactly when `k` sits at some position of `s`. */
  lemma {:induction false} IncludesIff(s: string, k: string)
    ensures Includes(s, k) <==> exists i :: OccursAt(s, k, i)
  {
    if StartsWith(s, k) {
      assert OccursAt(s, k, 0);
    } else if s == [] {
    } else {
      IncludesIff(s[1..], k);
      if exists i :: OccursAt(s, k, i) {
        var i :| OccursAt(s, k, i);
        assert i != 0;
        assert OccursAt(s[1..], k, i - 1) by {
          assert s[1..][i - 1..i - 1 + |k|] == s[i..i + |k|];
        }
      }
      if exists j :: OccursAt(s[1..], k, j) {
        var j :| OccursAt(s[1..], k, j);
        assert OccursAt(s, k, j + 1) by {
          assert s[1..][j..j + |k|] == s[j + 1..j + 1 + |k|];
        }
      }
    }
  }

  /** `toLowerCase` on one character, for the ASCII letters. */
  function LowerChar(c: char): (d: char)
    ensures 'A' <= c <= 'Z' ==> 'a' <= d <= 'z' && d as int - c as int == 32
    ensures !('A' <= c <= 'Z') ==> d == c
  {
    if 'A' <= c <= 'Z' then (c as int + 32) as char else c
  }

  /** `String.prototype.toLowerCase`, for the ASCII letters; every other character is kept. */
  function ToLower(s: string): string
  {
    seq(|s|, i requires 0 <= i < |s| => LowerChar(s[i]))
  }
}
