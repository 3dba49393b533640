/** The string operations the client uses, restricted to ASCII: `toLowerCase`,
    `toUpperCase`, `trim`, `includes` and the `/\s+/g` whitespace class. */
module Text {

  /** JavaScript white space, ASCII part: space, tab, LF, VT, FF and CR. */
  predicate IsSpace(c: char) {
    c == ' ' || c == '\t' || c == '\n' || c == '\r' || c as int == 11 || c as int == 12
  }

  function LowerChar(c: char): char {
    if 'A' <= c <= 'Z' then (c as int + 32) as char else c
  }

  function UpperChar(c: char): char {
    if 'a' <= c <= 'z' then (c as int - 32) as char else c
  }

  /** `s.toLowerCase()`, ASCII letters only. */
  function Lower(s: string): (r: string)
    ensures |r| == |s|
    ensures forall i :: 0 <= i < |s| ==> r[i] == LowerChar(s[i])
  {
    if s == [] then [] else [LowerChar(s[0])] + Lower(s[1..])
  }

  /** Case-insensitive equality as the stores compute it:
      `a.toLowerCase() === b.toLowerCase()`. */
  predicate SameFold(a: string, b: string) {
    Lower(a) == Lower(b)
  }

  /** Folding works character by character, so it distributes over `+`. */
  lemma LowerAppend(a: string, b: string)
    ensures Lower(a + b) == Lower(a) + Lower(b)
  {
    assert forall i :: 0 <= i < |a + b| ==> Lower(a + b)[i] == (Lower(a) + Lower(b))[i];
  }

  lemma LowerIdempotent(s: string)
    ensures Lower(Lower(s)) == Lower(s)
  {
  }

  /** The number of white-space characters at the start of `s`. */
  function LeadingSpaces(s: string): (k: nat)
    ensures k <= |s|
    ensures forall i :: 0 <= i < k ==> IsSpace(s[i])
    ensures k < |s| ==> !IsSpace(s[k])
  {
    if s != [] && IsSpace(s[0]) then 1 + LeadingSpaces(s[1..]) else 0
  }

  /** The number of white-space characters at the end of `s`. */
  function TrailingSpaces(s: string): (k: nat)
    ensures k <= |s|
    ensures forall i :: |s| - k <= i < |s| ==> IsSpace(s[i])
    ensures k < |s| ==> !IsSpace(s[|s| - 1 - k])
  {
    if s != [] && IsSpace(s[|s| - 1]) then 1 + TrailingSpaces(s[..|s| - 1]) else 0
  }

  function TrimStart(s: string): string {
    s[LeadingSpaces(s)..]
  }

  /** `s.trim()`: `s` without its leading and trailing white space. What
      is cut off at either end is white space, and what is kept neither
      starts nor ends with it. */
  function Trim(s: string): (r: string)
    ensures r == [] <==> forall i :: 0 <= i < |s| ==> IsSpace(s[i])
    ensures r != [] ==> !IsSpace(r[0]) && !IsSpace(r[|r| - 1])
    ensures exists a :: TrimmedAt(s, r, a)
  {
    var front := TrimStart(s);
    var r := front[..|front| - TrailingSpaces(front)];
    var a := LeadingSpaces(s);
    assert r == s[a..a + |r|];
    assert forall i :: a + |r| <= i < |s| ==> s[i] == front[i - a];
    assert TrimmedAt(s, r, a);
    r
  }

  /** `r` is `s` with `a` white-space characters cut from the front and the
      rest of what follows `r` (all white space) cut from the back. */
  predicate TrimmedAt(s: string, r: string, a: int) {
    && 0 <= a && a + |r| <= |s| && r == s[a..a + |r|]
    && (forall i :: 0 <= i < a ==> IsSpace(s[i]))
    && (forall i :: a + |r| <= i < |s| ==> IsSpace(s[i]))
  }

  /** The contract of `Trim` leaves no choice: any cut of white space from
      both ends that leaves no white space at either end is `Trim`'s. */
  lemma TrimUnique(s: string, t: string, a: int)
    requires TrimmedAt(s, t, a)
    requires t != [] ==> !IsSpace(t[0]) && !IsSpace(t[|t| - 1])
    ensures t == Trim(s)
  {
    var r := Trim(s);
    var b :| TrimmedAt(s, r, b);
    if t == [] {
      assert forall i :: 0 <= i < |s| ==> IsSpace(s[i]);
    } else {
      assert s[a] == t[0] && s[a + |t| - 1] == t[|t| - 1];
      assert !IsSpace(s[a]);
      assert r != [];
      assert s[b] == r[0] && s[b + |r| - 1] == r[|r| - 1];
      assert a == b;
      assert |t| == |r|;
    }
  }

  lemma {:induction false} TrimIdempotent(s: string)
    ensures Trim(Trim(s)) == Trim(s)
  {
    var t := Trim(s);
    if t != [] {
      assert LeadingSpaces(t) == 0;
      assert TrailingSpaces(t) == 0;
    }
  }

  /** `sub` occurs in `s` starting at index `i`. */
  predicate OccursAt(s: string, sub: string, i: int) {
    0 <= i && i + |sub| <= |s| && s[i..i + |sub|] == sub
  }

  /** `s.includes(sub)`. */
  function Contains(s: string, sub: string): (b: bool)
    ensures b <==> exists i :: OccursAt(s, sub, i)
    decreases |s|
  {
    if |sub| <= |s| && s[..|sub|] == sub then
      assert OccursAt(s, sub, 0);
      true
    else if |s| == 0 then
      false
    else
      ContainsStep(s, sub);
      Contains(s[1..], sub)
  }

  lemma ContainsStep(s: string, sub: string)
    requires |s| > 0 && !OccursAt(s, sub, 0)
    ensures (exists i :: OccursAt(s, sub, i)) <==> (exists i :: OccursAt(s[1..], sub, i))
  {
    if exists i :: OccursAt(s, sub, i) {
      var i :| OccursAt(s, sub, i);
      assert s[1..][i - 1..i - 1 + |sub|] == s[i..i + |sub|];
      assert OccursAt(s[1..], sub, i - 1);
    }
    if exists i :: OccursAt(s[1..], sub, i) {
      var i :| OccursAt(s[1..], sub, i);
      assert s[1..][i..i + |sub|] == s[i + 1..i + 1 + |sub|];
      assert OccursAt(s, sub, i + 1);
    }
  }

  /** `s.toLowerCase().replace(/\s+/g, "-")`: lower-case, with every maximal
      run of white space replaced by one `-`. */
  function Slug(s: string): (r: string)
    ensures |r| <= |s|
    ensures forall i :: 0 <= i < |r| ==> !IsSpace(r[i])
    decreases |s|
  {
    if s == [] then []
    else if IsSpace(s[0]) then "-" + Slug(TrimStart(s[1..]))
    else [LowerChar(s[0])] + Slug(s[1..])
  }

  /** A word without white space is only lower-cased. */
  lemma {:induction false} SlugOfWord(w: string)
    requires forall i :: 0 <= i < |w| ==> !IsSpace(w[i])
    ensures Slug(w) == Lower(w)
  {
    if w != [] {
      SlugOfWord(w[1..]);
    }
  }

  /** A word followed by the rest: the word is lower-cased, the rest slugged. */
  lemma {:induction false} SlugWordThen(w: string, rest: string)
    requires forall i :: 0 <= i < |w| ==> !IsSpace(w[i])
    ensures Slug(w + rest) == Lower(w) + Slug(rest)
  {
    if w != [] {
      assert (w + rest)[0] == w[0];
      assert (w + rest)[1..] == w[1..] + rest;
      SlugWordThen(w[1..], rest);
      assert Lower(w) == [LowerChar(w[0])] + Lower(w[1..]);
    } else {
      assert w + rest == rest;
    }
  }

  /** A non-empty run of white space before a non-space becomes a single `-`. */
  lemma {:induction false} SlugRunThen(ws: string, rest: string)
    requires ws != [] && forall i :: 0 <= i < |ws| ==> IsSpace(ws[i])
    requires rest == [] || !IsSpace(rest[0])
    ensures Slug(ws + rest) == "-" + Slug(rest)
  {
    var s := ws + rest;
    assert s[1..] == ws[1..] + rest;
    LeadingAfterSpaces(ws[1..], rest);
  }

  lemma {:induction false} LeadingAfterSpaces(ws: string, rest: string)
    requires forall i :: 0 <= i < |ws| ==> IsSpace(ws[i])
    requires rest == [] || !IsSpace(rest[0])
    ensures TrimStart(ws + rest) == rest
  {
    if ws == [] {
      assert ws + rest == rest;
    } else {
      assert (ws + rest)[1..] == ws[1..] + rest;
      LeadingAfterSpaces(ws[1..], rest);
    }
  }

  /** Slugs do not see case: names that fold equal get the same key. */
  lemma {:induction false} SlugIgnoresCase(a: string, b: string)
    requires SameFold(a, b)
    ensures Slug(a) == Slug(b)
    decreases |a|
  {
    if a != [] {
      assert LowerChar(a[0]) == LowerChar(b[0]);
      assert IsSpace(a[0]) <==> IsSpace(b[0]);
      assert Lower(a[1..]) == Lower(b[1..]);
      if IsSpace(a[0]) {
        TrimStartIgnoresCase(a[1..], b[1..]);
        SlugIgnoresCase(TrimStart(a[1..]), TrimStart(b[1..]));
      } else {
        SlugIgnoresCase(a[1..], b[1..]);
      }
    }
  }

  lemma {:induction false} TrimStartIgnoresCase(a: string, b: string)
    requires SameFold(a, b)
    ensures SameFold(TrimStart(a), TrimStart(b))
    decreases |a|
  {
    if a != [] {
      assert LowerChar(a[0]) == LowerChar(b[0]);
      assert IsSpace(a[0]) <==> IsSpace(b[0]);
      assert Lower(a[1..]) == Lower(b[1..]);
      if IsSpace(a[0]) {
        TrimStartIgnoresCase(a[1..], b[1..]);
      }
    }
  }

  /** `s.replace(from, to)` for one-character strings: only the first
      occurrence of `from` is replaced. */
  function ReplaceFirst(s: string, from: char, to: char): string {
    if s == [] then []
    else if s[0] == from then [to] + s[1..]
    else [s[0]] + ReplaceFirst(s[1..], from, to)
  }

  /** With `from` first found at `k`, exactly that character is replaced. */
  lemma {:induction false} ReplaceFirstAt(s: string, from: char, to: char, k: nat)
    requires k < |s| && s[k] == from && from !in s[..k]
    ensures ReplaceFirst(s, from, to) == s[..k] + [to] + s[k + 1..]
  {
    if k > 0 {
      assert s[0] in s[..k];
      assert s[1..][..k - 1] == s[1..k];
      ReplaceFirstAt(s[1..], from, to, k - 1);
    }
  }

  /** With no `from` in `s`, nothing is replaced. */
  lemma {:induction false} ReplaceFirstAbsent(s: string, from: char, to: char)
    requires from !in s
    ensures ReplaceFirst(s, from, to) == s
  {
    if s != [] {
      assert from !in s[1..];
      ReplaceFirstAbsent(s[1..], from, to);
    }
  }
}
