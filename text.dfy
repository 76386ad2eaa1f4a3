/**
 * The JavaScript string operations the bot relies on, over `seq<char>`:
 * `trim`, `startsWith`/`endsWith`, `toLowerCase` (ASCII letters), `join`,
 * `filter(Boolean)`, `String.prototype.replace` with a string pattern, and the
 * decimal rendering of integers used by template literals.
 */
module Text {
  import opened Wrappers

  // ---------------------------------------------------------------------------
  // Whitespace and trim
  // ---------------------------------------------------------------------------

  /** ECMAScript WhiteSpace and LineTerminator code points: what `trim` strips
      and what the regular-expression class `\s` matches. */
  predicate IsSpace(c: char) {
    || c == ' ' || c == '\t' || c == '\n' || c == '\U{000B}' || c == '\U{000C}' || c == '\r'
    || c == '\U{00A0}' || c == '\U{1680}' || ('\U{2000}' <= c <= '\U{200A}')
    || c == '\U{2028}' || c == '\U{2029}' || c == '\U{202F}' || c == '\U{205F}'
    || c == '\U{3000}' || c == '\U{FEFF}'
  }

  predicate AllSpace(s: string) {
    forall i :: 0 <= i < |s| ==> IsSpace(s[i])
  }

  /** Drops the leading whitespace: the result is the suffix of `s` that starts
      at its first non-space character. */
  function TrimStart(s: string): (r: string)
    ensures |r| <= |s| && r == s[|s| - |r|..]
    ensures r == [] || !IsSpace(r[0])
    ensures AllSpace(s[..|s| - |r|])
  {
    if s != [] && IsSpace(s[0]) then
      var r := TrimStart(s[1..]);
      assert s[1..][..|s[1..]| - |r|] == s[1..|s| - |r|];
      r
    else s
  }

  /** Drops the trailing whitespace: the result is the prefix of `s` that ends
      at its last non-space character. */
  function TrimEnd(s: string): (r: string)
    ensures |r| <= |s| && r == s[..|r|]
    ensures r == [] || !IsSpace(r[|r| - 1])
    ensures AllSpace(s[|r|..])
  {
    if s != [] && IsSpace(s[|s| - 1]) then
      var r := TrimEnd(s[..|s| - 1]);
      assert s[..|s| - 1][|r|..] + [s[|s| - 1]] == s[|r|..];
      r
    else s
  }

  /** `String.prototype.trim`. */
  function Trim(s: string): string {
    TrimEnd(TrimStart(s))
  }

  /** What is left after trim is the piece of the input that starts after the
      leading whitespace, everything cut off is whitespace, and the piece has no
      whitespace at either end. */
  lemma TrimShape(s: string)
    ensures var r, k := Trim(s), |s| - |TrimStart(s)|;
      k + |r| <= |s| && r == s[k..k + |r|] && AllSpace(s[..k]) && AllSpace(s[k + |r|..])
    ensures TrimEdges(Trim(s))
  {
    TrimPiece(s);
    TrimCutTrailing(s);
    TrimEdgesHold(s);
  }

  lemma TrimPiece(s: string)
    ensures var r, k := Trim(s), |s| - |TrimStart(s)|; k + |r| <= |s| && r == s[k..k + |r|]
  {
    var a := TrimStart(s);
    assert TrimEnd(a) == a[..|TrimEnd(a)|];
  }

  lemma TrimCutTrailing(s: string)
    ensures var r, k := Trim(s), |s| - |TrimStart(s)|; k + |r| <= |s| && AllSpace(s[k + |r|..])
  {
    var a := TrimStart(s);
    var r := TrimEnd(a);
    var k := |s| - |a|;
    var t := s[k + |r|..];
    assert AllSpace(a[|r|..]);
    forall i | 0 <= i < |t| ensures IsSpace(t[i]) {
      assert t[i] == a[|r|..][i];
    }
  }

  /** `s` has no whitespace at either end. */
  predicate TrimEdges(s: string) {
    s == [] || (!IsSpace(s[0]) && !IsSpace(s[|s| - 1]))
  }

  lemma TrimEdgesHold(s: string)
    ensures TrimEdges(Trim(s))
  {
  }

  /** A string without whitespace at its ends is its own trim. */
  lemma TrimOfTrimmed(s: string)
    requires TrimEdges(s)
    ensures Trim(s) == s
  {
  }

  lemma TrimIdempotent(s: string)
    ensures Trim(Trim(s)) == Trim(s)
  {
    TrimShape(s);
    TrimOfTrimmed(Trim(s));
  }

  /** Trim is empty exactly for all-whitespace input. */
  lemma TrimEmptyIff(s: string)
    ensures Trim(s) == [] <==> AllSpace(s)
  {
    TrimShape(s);
    var r, k := Trim(s), |s| - |TrimStart(s)|;
    if r == [] {
      assert s == s[..k] + s[k..];
    }
  }

  lemma TrimStartConcat(x: string, y: string)
    requires y != [] && !IsSpace(y[0])
    ensures TrimStart(x + y) == TrimStart(x) + y
  {
    if x != [] {
      assert (x + y)[0] == x[0];
      if IsSpace(x[0]) {
        assert (x + y)[1..] == x[1..] + y;
        TrimStartConcat(x[1..], y);
      }
    }
  }

  lemma TrimEndConcat(x: string, y: string)
    requires x != [] && !IsSpace(x[|x| - 1])
    ensures TrimEnd(x + y) == x + TrimEnd(y)
  {
    if y != [] {
      assert (x + y)[|x + y| - 1] == y[|y| - 1];
      if IsSpace(y[|y| - 1]) {
        assert (x + y)[..|x + y| - 1] == x + y[..|y| - 1];
        TrimEndConcat(x, y[..|y| - 1]);
      }
    }
  }

  /** Trimming text that surrounds a core with non-space ends only trims the
      surroundings: the core survives intact. */
  lemma TrimAround(p: string, m: string, q: string)
    requires m != [] && !IsSpace(m[0]) && !IsSpace(m[|m| - 1])
    ensures Trim(p + m + q) == TrimStart(p) + m + TrimEnd(q)
  {
    assert p + m + q == p + (m + q);
    TrimStartConcat(p, m + q);
    assert TrimStart(p) + (m + q) == (TrimStart(p) + m) + q;
    var x := TrimStart(p) + m;
    assert x[|x| - 1] == m[|m| - 1];
    TrimEndConcat(x, q);
  }

  /** Trimming adds no character. */
  lemma TrimStartKeepsAbsence(s: string, c: char)
    requires c !in s
    ensures c !in TrimStart(s)
  {
    var r := TrimStart(s);
    forall k | 0 <= k < |r| ensures r[k] != c {
      assert r[k] == s[|s| - |r| + k];
    }
  }

  lemma TrimEndKeepsAbsence(s: string, c: char)
    requires c !in s
    ensures c !in TrimEnd(s)
  {
    var r := TrimEnd(s);
    forall k | 0 <= k < |r| ensures r[k] != c {
      assert r[k] == s[k];
    }
  }

  // ---------------------------------------------------------------------------
  // Prefixes, suffixes, case
  // ---------------------------------------------------------------------------

  predicate StartsWith(s: string, p: string) {
    |p| <= |s| && s[..|p|] == p
  }

  predicate EndsWith(s: string, p: string) {
    |p| <= |s| && s[|s| - |p|..] == p
  }

  function LowerChar(c: char): char {
    if 'A' <= c <= 'Z' then (c as int + 32) as char else c
  }

  /** `toLowerCase` restricted to ASCII letters (see README, Left out). */
  function ToLower(s: string): (r: string)
    ensures |r| == |s|
    ensures forall i :: 0 <= i < |s| ==> r[i] == LowerChar(s[i])
  {
    seq(|s|, i requires 0 <= i < |s| => LowerChar(s[i]))
  }

  lemma ToLowerConcat(a: string, b: string)
    ensures ToLower(a + b) == ToLower(a) + ToLower(b)
  {
    assert forall i :: 0 <= i < |a + b| ==> (a + b)[i] == if i < |a| then a[i] else b[i - |a|];
  }

  /** Lower-casing leaves `!` alone and produces it from nothing else. */
  lemma LowerCharBang(c: char)
    ensures LowerChar(c) == '!' <==> c == '!'
  {
  }

  // ---------------------------------------------------------------------------
  // join and filter(Boolean)
  // ---------------------------------------------------------------------------

  /** `Array.prototype.join(sep)` on an array of strings. */
  function Join(parts: seq<string>, sep: string): string
    decreases |parts|
  {
    if |parts| == 0 then ""
    else if |parts| == 1 then parts[0]
    else parts[0] + sep + Join(parts[1..], sep)
  }

  /** Joining one more part appends the separator and that part. */
  lemma {:induction false} JoinSnoc(parts: seq<string>, x: string, sep: string)
    requires parts != []
    ensures Join(parts + [x], sep) == Join(parts, sep) + sep + x
  {
    if |parts| == 1 {
      assert parts + [x] == [parts[0], x];
      assert [parts[0], x][1..] == [x];
    } else {
      assert (parts + [x])[1..] == parts[1..] + [x];
      JoinSnoc(parts[1..], x, sep);
    }
  }

  /** Joining splits at any part boundary. */
  lemma {:induction false} JoinSplitAt(parts: seq<string>, k: nat, sep: string)
    requires 0 < k < |parts|
    ensures Join(parts, sep) == Join(parts[..k], sep) + sep + Join(parts[k..], sep)
    decreases k
  {
    if k == 1 {
      assert parts[..1] == [parts[0]];
      assert parts[1..] == parts[k..];
    } else {
      assert parts[1..][..k - 1] == parts[1..k];
      assert parts[1..][k - 1..] == parts[k..];
      JoinSplitAt(parts[1..], k - 1, sep);
      assert parts[..k][1..] == parts[1..k];
    }
  }

  /** Text that ends with `p` still does after anything is put before it. */
  lemma EndsWithPrepend(x: string, y: string, p: string)
    requires EndsWith(y, p)
    ensures EndsWith(x + y, p)
  {
    assert (x + y)[|x + y| - |p|..] == y[|y| - |p|..];
  }

  /** A suffix at least as long as `p` of text ending with `p` ends with `p`. */
  lemma EndsWithSuffix(t: string, r: string, p: string)
    requires EndsWith(t, p) && |p| <= |r| <= |t| && r == t[|t| - |r|..]
    ensures EndsWith(r, p)
  {
    assert r[|r| - |p|..] == t[|t| - |p|..];
  }

  /** A join ends with its last part. */
  lemma {:induction false} JoinEndsWithLast(parts: seq<string>, sep: string)
    requires parts != []
    ensures EndsWith(Join(parts, sep), parts[|parts| - 1])
    decreases |parts|
  {
    if |parts| > 1 {
      JoinEndsWithLast(parts[1..], sep);
      EndsWithPrepend(parts[0] + sep, Join(parts[1..], sep), parts[|parts| - 1]);
    }
  }

  /** Joining a leading part puts it before the separator. */
  lemma JoinCons(x: string, rest: seq<string>, sep: string)
    requires rest != []
    ensures Join([x] + rest, sep) == x + sep + Join(rest, sep)
  {
    assert ([x] + rest)[1..] == rest;
  }

  /** Joining a fixed line `a` and a labelled line `b + p` before `rest`. */
  lemma JoinSecondLine(a: string, b: string, p: string, rest: seq<string>, sep: string)
    requires rest != []
    ensures Join([a, b + p] + rest, sep) == a + sep + b + p + (sep + Join(rest, sep))
  {
    assert [a, b + p] + rest == [a] + ([b + p] + rest);
    JoinCons(a, [b + p] + rest, sep);
    JoinCons(b + p, rest, sep);
  }

  /** Joining two labelled lines `a + p` and `b + q` before `rest`. */
  lemma JoinTwoLines(a: string, p: string, b: string, q: string, rest: seq<string>, sep: string)
    requires rest != []
    ensures Join([a + p, b + q] + rest, sep) == a + p + (sep + b) + q + (sep + Join(rest, sep))
  {
    assert [a + p, b + q] + rest == [a + p] + ([b + q] + rest);
    JoinCons(a + p, [b + q] + rest, sep);
    JoinCons(b + q, rest, sep);
  }

  /** `filter(Boolean)` on strings: keeps the non-empty ones, in order. */
  function NonEmpty(parts: seq<string>): (r: seq<string>)
    ensures forall x :: x in r ==> x != "" && x in parts
    ensures forall x :: x in parts && x != "" ==> x in r
    ensures |r| <= |parts|
  {
    if parts == [] then []
    else if parts[0] == "" then NonEmpty(parts[1..])
    else [parts[0]] + NonEmpty(parts[1..])
  }

  lemma NonEmptySnoc(parts: seq<string>, x: string)
    ensures NonEmpty(parts + [x]) == NonEmpty(parts) + (if x == "" then [] else [x])
  {
    if parts != [] {
      assert (parts + [x])[1..] == parts[1..] + [x];
      NonEmptySnoc(parts[1..], x);
    }
  }

  /** `filter` distributes over concatenation. */
  lemma {:induction false} NonEmptyConcat(a: seq<string>, b: seq<string>)
    ensures NonEmpty(a + b) == NonEmpty(a) + NonEmpty(b)
  {
    if a == [] {
      assert a + b == b;
    } else {
      assert (a + b)[0] == a[0];
      assert (a + b)[1..] == a[1..] + b;
      NonEmptyConcat(a[1..], b);
    }
  }

  /** An array without empty strings passes the filter unchanged. */
  lemma NonEmptyKeepsAll(parts: seq<string>)
    requires forall i :: 0 <= i < |parts| ==> parts[i] != ""
    ensures NonEmpty(parts) == parts
  {
    if parts != [] {
      NonEmptyKeepsAll(parts[1..]);
    }
  }

  /** Lines without empty entries, then one optional line: the optional line
      is joined on only when it is non-empty. */
  lemma JoinOptionalLast(parts: seq<string>, x: string, sep: string)
    requires parts != [] && forall i :: 0 <= i < |parts| ==> parts[i] != ""
    ensures Join(NonEmpty(parts + [x]), sep) == if x == "" then Join(parts, sep) else Join(parts, sep) + sep + x
  {
    NonEmptyKeepsAll(parts);
    NonEmptySnoc(parts, x);
    if x != "" {
      assert NonEmpty(parts + [x]) == parts + [x];
      JoinSnoc(parts, x, sep);
    } else {
      assert NonEmpty(parts + [x]) == parts;
    }
  }

  /** An empty string anywhere in the array does not survive the filter. */
  lemma NonEmptyDropsEmpty(p: seq<string>, q: seq<string>)
    ensures NonEmpty(p + [""] + q) == NonEmpty(p + q)
  {
    NonEmptyConcat(p + [""], q);
    NonEmptyConcat(p, [""]);
    NonEmptyConcat(p, q);
    assert [""][1..] == [];
  }

  // ---------------------------------------------------------------------------
  // Substring search and String.prototype.replace(string, string)
  // ---------------------------------------------------------------------------

  /** `p` occurs in `s` at position `i`. */
  predicate At(s: string, p: string, i: int) {
    0 <= i && i + |p| <= |s| && s[i..i + |p|] == p
  }

  predicate Contains(s: string, p: string) {
    exists i :: 0 <= i <= |s| && At(s, p, i)
  }

  function IndexFrom(s: string, p: string, from: nat): (r: Option<nat>)
    requires from <= |s|
    ensures r.Some? ==> (from <= r.value && At(s, p, r.value)
      && forall j :: from <= j < r.value ==> !At(s, p, j))
    ensures r.None? ==> forall j :: from <= j ==> !At(s, p, j)
    decreases |s| - from
  {
    if from + |p| > |s| then None
    else if s[from..from + |p|] == p then Some(from)
    else IndexFrom(s, p, from + 1)
  }

  /** `indexOf`: the first position at which `p` occurs, if any. */
  function IndexOf(s: string, p: string): (r: Option<nat>)
    ensures r.Some? <==> Contains(s, p)
    ensures r.Some? ==> At(s, p, r.value) && forall j :: 0 <= j < r.value ==> !At(s, p, j)
  {
    IndexFrom(s, p, 0)
  }

  /** `s.replace(p, rep)` for a string pattern: only the first occurrence is
      replaced, and the replacement is inserted literally. */
  function ReplaceFirst(s: string, p: string, rep: string): string {
    match IndexOf(s, p)
    case None => s
    case Some(i) => s[..i] + rep + s[i + |p|..]
  }

  /** The replacement splices `rep` in place of the first occurrence. */
  lemma ReplaceFirstSplit(s: string, p: string, rep: string)
    ensures !Contains(s, p) ==> ReplaceFirst(s, p, rep) == s
    ensures Contains(s, p) ==>
      var i := IndexOf(s, p).value;
      At(s, p, i) && (forall j :: 0 <= j < i ==> !At(s, p, j))
      && ReplaceFirst(s, p, rep) == s[..i] + rep + s[i + |p|..]
  {
    match IndexOf(s, p)
    case None =>
    case Some(i) =>
      assert At(s, p, i);
  }

  /** In `a + p + b`, when `a` has no occurrence of `p` that ends at or before
      the boundary, the first occurrence is the displayed one. */
  lemma ReplaceFirstAt(a: string, p: string, b: string, rep: string)
    requires forall j :: 0 <= j < |a| ==> !At(a + p + b, p, j)
    ensures ReplaceFirst(a + p + b, p, rep) == a + rep + b
  {
    var s := a + p + b;
    assert s[|a|..|a| + |p|] == p;
    assert At(s, p, |a|);
    var i := IndexOf(s, p).value;
    assert i == |a|;
    assert s[..|a|] == a;
    assert s[|a| + |p|..] == b;
  }

  /** Replacing the pattern in its slot, when nothing before the slot holds
      the pattern's first character. */
  lemma ReplaceSlot(a: string, p: string, b: string, rep: string)
    requires p != [] && p[0] !in a
    ensures ReplaceFirst(a + p + b, p, rep) == a + rep + b
  {
    FirstOccurrenceAfter(a, p, b);
    ReplaceFirstAt(a, p, b, rep);
  }

  /** `ReplaceSlot` for a slot followed by three more pieces. */
  lemma ReplaceFirstSlotOfFive(a: string, p: string, m: string, q: string, b: string, rep: string)
    requires p != [] && p[0] !in a
    ensures ReplaceFirst(a + p + m + q + b, p, rep) == a + rep + m + q + b
  {
    assert a + p + m + q + b == a + p + (m + q + b);
    ReplaceSlot(a, p, m + q + b, rep);
    assert a + rep + (m + q + b) == a + rep + m + q + b;
  }

  /** No occurrence of `p` can start at a position holding a character other
      than `p`'s first. */
  lemma NoOccurrenceWithoutFirstChar(s: string, p: string)
    requires p != [] && forall i :: 0 <= i < |s| ==> s[i] != p[0]
    ensures !Contains(s, p)
  {
    forall i | 0 <= i <= |s| && i + |p| <= |s| ensures !At(s, p, i) {
      assert s[i..i + |p|][0] == s[i];
    }
  }

  /** When `p`'s first character does not occur in `a`, the first occurrence
      of `p` in `a + p + b` is the displayed one. */
  lemma FirstOccurrenceAfter(a: string, p: string, b: string)
    requires p != [] && p[0] !in a
    ensures IndexOf(a + p + b, p) == Some(|a|)
  {
    var s := a + p + b;
    assert s[|a|..|a| + |p|] == p;
    forall j | 0 <= j < |a| && j + |p| <= |s| ensures !At(s, p, j) {
      assert s[j..j + |p|][0] == s[j] == a[j];
    }
    assert At(s, p, |a|);
    assert Contains(s, p);
  }

  /** The first position holding `c`. */
  function FirstIndexOfChar(s: string, c: char): (r: Option<nat>)
    ensures r.None? <==> c !in s
    ensures r.Some? ==> r.value < |s| && s[r.value] == c && c !in s[..r.value]
  {
    if s == [] then None
    else if s[0] == c then Some(0)
    else match FirstIndexOfChar(s[1..], c)
      case None => None
      case Some(i) => assert s[..i + 1] == [s[0]] + s[1..][..i]; Some(i + 1)
  }

  lemma FirstIndexOfCharAt(s: string, c: char, k: nat)
    requires k < |s| && s[k] == c && c !in s[..k]
    ensures FirstIndexOfChar(s, c) == Some(k)
    decreases k
  {
    if k > 0 {
      assert s[0] == s[..k][0];
      assert s[1..][..k - 1] == s[..k][1..];
      FirstIndexOfCharAt(s[1..], c, k - 1);
    }
  }

  /** The last position holding `c`. */
  function LastIndexOfChar(s: string, c: char): (r: Option<nat>)
    ensures r.None? <==> c !in s
    ensures r.Some? ==> r.value < |s| && s[r.value] == c && c !in s[r.value + 1..]
  {
    if s == [] then None
    else if s[|s| - 1] == c then Some(|s| - 1)
    else match LastIndexOfChar(s[..|s| - 1], c)
      case None => None
      case Some(i) => assert s[i + 1..] == s[..|s| - 1][i + 1..] + [s[|s| - 1]]; Some(i)
  }

  lemma LastIndexOfCharAt(s: string, c: char, k: nat)
    requires k < |s| && s[k] == c && c !in s[k + 1..]
    ensures LastIndexOfChar(s, c) == Some(k)
    decreases |s| - k
  {
    if k < |s| - 1 {
      assert s[|s| - 1] == s[k + 1..][|s| - k - 2];
      assert s[..|s| - 1][k + 1..] == s[k + 1..|s| - 1];
      LastIndexOfCharAt(s[..|s| - 1], c, k);
    }
  }

  /** A joined array holds a character only if a part or the separator does. */
  lemma {:induction false} JoinFree(parts: seq<string>, sep: string, c: char)
    requires c !in sep && forall i :: 0 <= i < |parts| ==> c !in parts[i]
    ensures c !in Join(parts, sep)
    decreases |parts|
  {
    if |parts| > 1 {
      JoinFree(parts[1..], sep, c);
    }
  }

  /** A pattern longer than `b` cannot occur in `a + b` when its first
      character is missing from `a`. */
  lemma NoLongOccurrenceAfter(a: string, b: string, p: string)
    requires p != [] && p[0] !in a && |p| > |b|
    ensures !Contains(a + b, p)
  {
    var s := a + b;
    forall i | 0 <= i <= |s| && i + |p| <= |s| ensures !At(s, p, i) {
      assert s[i..i + |p|][0] == s[i] == a[i];
    }
  }

  /** In a text with two slots `p` and `q`, the first occurrence of `p` is
      its slot when `a` lacks `p`'s first character, and `q` occurs. */
  lemma TwoSlotsLocated(a: string, p: string, m: string, q: string, b: string)
    requires p != [] && p[0] !in a
    ensures IndexOf(a + p + m + q + b, p) == Some(|a|)
    ensures Contains(a + p + m + q + b, q)
  {
    assert a + p + m + q + b == a + p + (m + q + b);
    FirstOccurrenceAfter(a, p, m + q + b);
    ContainsDisplayed(a + p + m, q, b);
  }

  /** Two labelled lines `a + p` and `b + q` joined before `rest`: both slots
      occur, and the first occurrence of `p` is its slot when `a` lacks `p`'s
      first character. */
  lemma JoinedSlots(a: string, p: string, b: string, q: string, rest: seq<string>, sep: string)
    requires rest != []
    ensures Contains(Join([a + p, b + q] + rest, sep), p)
    ensures Contains(Join([a + p, b + q] + rest, sep), q)
    ensures p != [] && p[0] !in a ==> IndexOf(Join([a + p, b + q] + rest, sep), p) == Some(|a|)
  {
    JoinTwoLines(a, p, b, q, rest, sep);
    var tail := sep + Join(rest, sep);
    assert a + p + (sep + b) + q + tail == a + p + ((sep + b) + q + tail);
    ContainsDisplayed(a, p, (sep + b) + q + tail);
    ContainsDisplayed(a + p + (sep + b), q, tail);
    if p != [] && p[0] !in a {
      TwoSlotsLocated(a, p, sep + b, q, tail);
    }
  }

  /** A pattern placed at the end of a text lacking its first character
      occurs only there. */
  lemma OnlyAtEnd(a: string, p: string)
    requires p != [] && p[0] !in a
    ensures forall k :: At(a + p, p, k) ==> k == |a|
  {
    var s := a + p;
    assert forall t :: 0 <= t < |a| ==> s[t] == a[t];
    forall k | At(s, p, k) ensures k == |a| {
      assert s[k..k + |p|][0] == s[k];
    }
  }

  /** A template placeholder: two opening braces, then no other one. */
  predicate IsPlaceholder(x: string) {
    |x| >= 3 && x[0] == '{' && x[1] == '{' && forall t :: 2 <= t < |x| ==> x[t] != '{'
  }

  /** In a text whose only opening braces are those of two placeholders `x`
      and `y`, a placeholder `p` can occur only where `x` or `y` stands, and
      only if it agrees with that one on its first character after the braces. */
  lemma PlaceholderOccurrences(a: string, x: string, m: string, y: string, b: string, p: string)
    requires IsPlaceholder(x) && IsPlaceholder(y) && IsPlaceholder(p)
    requires '{' !in a && '{' !in m && '{' !in b
    ensures forall k :: At(a + x + m + y + b, p, k) ==>
      (k == |a| && p[2] == x[2]) || (k == |a| + |x| + |m| && p[2] == y[2])
  {
    var s := a + x + m + y + b;
    var i := |a|;
    var j := |a| + |x| + |m|;
    assert forall t :: 0 <= t < i ==> s[t] == a[t];
    assert forall t :: i <= t < i + |x| ==> s[t] == x[t - i];
    assert forall t :: i + |x| <= t < j ==> s[t] == m[t - i - |x|];
    assert forall t :: j <= t < j + |y| ==> s[t] == y[t - j];
    assert forall t :: j + |y| <= t < |s| ==> s[t] == b[t - j - |y|];
    forall k | At(s, p, k)
      ensures (k == i && p[2] == x[2]) || (k == j && p[2] == y[2])
    {
      assert s[k..k + |p|][0] == s[k];
      assert s[k..k + |p|][1] == s[k + 1];
      assert s[k..k + |p|][2] == s[k + 2];
    }
  }

  /** The displayed occurrence is an occurrence. */
  lemma ContainsDisplayed(a: string, p: string, b: string)
    ensures Contains(a + p + b, p)
  {
    var s := a + p + b;
    assert s[|a|..|a| + |p|] == p;
    assert At(s, p, |a|);
  }

  /** An occurrence survives text added on either side. */
  lemma ContainsWithin(x: string, s: string, y: string, p: string)
    requires Contains(s, p)
    ensures Contains(x + s + y, p)
  {
    var i :| 0 <= i <= |s| && At(s, p, i);
    var t := x + s + y;
    assert t[|x| + i..|x| + i + |p|] == s[i..i + |p|];
    assert At(t, p, |x| + i);
  }

  /** Every part occurs in the joined text. */
  lemma {:induction false} JoinContainsPart(parts: seq<string>, k: nat, sep: string)
    requires k < |parts|
    ensures Contains(Join(parts, sep), parts[k])
    decreases k
  {
    if |parts| == 1 {
      ContainsDisplayed("", parts[0], "");
      assert "" + parts[0] + "" == parts[0];
    } else if k == 0 {
      ContainsDisplayed("", parts[0], sep + Join(parts[1..], sep));
      assert "" + parts[0] + (sep + Join(parts[1..], sep)) == Join(parts, sep);
    } else {
      JoinContainsPart(parts[1..], k - 1, sep);
      ContainsWithin(parts[0] + sep, Join(parts[1..], sep), "", parts[k]);
      assert parts[0] + sep + Join(parts[1..], sep) + "" == Join(parts, sep);
    }
  }

  /** A pattern holding a character the text lacks does not occur in it. */
  lemma AbsentCharNoOccurrence(s: string, p: string, c: char)
    requires c in p && c !in s
    ensures !Contains(s, p)
  {
    forall i | 0 <= i <= |s| && i + |p| <= |s| ensures !At(s, p, i) {
      var k :| 0 <= k < |p| && p[k] == c;
      assert s[i..i + |p|][k] == s[i + k];
    }
  }

  // ---------------------------------------------------------------------------
  // Nullish fallbacks
  // ---------------------------------------------------------------------------

  /** A chain of `??`: the first defined value, else the fallback. */
  function FirstDefined(options: seq<Option<string>>, fallback: string): (r: string)
    ensures (forall i :: 0 <= i < |options| ==> options[i].None?) ==> r == fallback
    ensures forall i :: (0 <= i < |options| && options[i].Some? && (forall j :: 0 <= j < i ==> options[j].None?))
                   ==> r == options[i].value
  {
    if options == [] then fallback
    else if options[0].Some? then options[0].value
    else
      assert forall i :: 1 <= i < |options| ==> options[1..][i - 1] == options[i];
      FirstDefined(options[1..], fallback)
  }

  // ---------------------------------------------------------------------------
  // Decimal digits
  // ---------------------------------------------------------------------------

  predicate IsDigit(c: char) {
    '0' <= c <= '9'
  }

  function DigitValue(c: char): nat
    requires IsDigit(c)
  {
    c as int - '0' as int
  }

  function DigitChar(d: nat): (c: char)
    requires d < 10
    ensures IsDigit(c) && DigitValue(c) == d
  {
    ('0' as int + d) as char
  }

  predicate AllDigits(s: string) {
    forall i :: 0 <= i < |s| ==> IsDigit(s[i])
  }

  /** The number a digit string denotes. */
  function DigitsValue(ds: string): nat
    requires AllDigits(ds)
  {
    if ds == [] then 0 else DigitsValue(ds[..|ds| - 1]) * 10 + DigitValue(ds[|ds| - 1])
  }

  /** Decimal rendering of a natural number, without leading zeros. */
  function NatToString(n: nat): (r: string)
    ensures r != [] && AllDigits(r)
    ensures DigitsValue(r) == n
    ensures |r| > 1 ==> r[0] != '0'
  {
    if n < 10 then [DigitChar(n)]
    else
      var r := NatToString(n / 10) + [DigitChar(n % 10)];
      assert r[..|r| - 1] == NatToString(n / 10);
      r
  }

  /** Decimal rendering of an integer, as `${n}` gives for a safe integer. */
  function IntToString(n: int): (r: string)
    ensures n < 0 <==> (r != [] && r[0] == '-')
    ensures n < 0 ==> AllDigits(r[1..]) && DigitsValue(r[1..]) == -n
    ensures n >= 0 ==> AllDigits(r) && DigitsValue(r) == n
  {
    if n < 0 then "-" + NatToString(-n) else NatToString(n)
  }
}
