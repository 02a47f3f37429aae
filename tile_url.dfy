/** The tile address resolver behind each overlay's `getTileUrl`: the backend's template is
    passed through three JavaScript `String.prototype.replace` calls with string patterns and
    rendered numbers (digits and '-', never `$`) as replacements, so each placeholder is replaced
    at its FIRST occurrence only, zoom first, then column, then row. */
module TileUrl {
  import opened Wrappers
  import opened Decimal

  /** A tile position as the map host passes it. The host does not normalise the column, so it
      can be negative or beyond the world's width when the map wraps around. */
  datatype TileCoord = TileCoord(x: int, y: int)

  const ZoomKey: string := "{z}"
  const ColumnKey: string := "{x}"
  const RowKey: string := "{y}"

  predicate IsKey(q: string) {
    q == ZoomKey || q == ColumnKey || q == RowKey
  }

  /** The text put in place of a placeholder. */
  function KeyValue(q: string, coord: TileCoord, zoom: int): string {
    if q == ZoomKey then NumberString(zoom)
    else if q == ColumnKey then NumberString(coord.x)
    else NumberString(coord.y)
  }

  // ---------------------------------------------------------------------------
  // Occurrences, first occurrence and first-occurrence replacement
  // ---------------------------------------------------------------------------

  predicate OccursAt(s: string, p: string, k: nat) {
    k + |p| <= |s| && s[k..k + |p|] == p
  }

  /** `k` is where `p` first occurs in `s`. */
  predicate FirstAt(s: string, p: string, k: nat) {
    OccursAt(s, p, k) && forall j: nat :: j < k ==> !OccursAt(s, p, j)
  }

  /** Searches for `p` from position `k` on. */
  function IndexFrom(s: string, p: string, k: nat): (r: Option<nat>)
    ensures r.Some? ==> k <= r.value && OccursAt(s, p, r.value)
    ensures r.Some? ==> forall j: nat :: k <= j < r.value ==> !OccursAt(s, p, j)
    ensures r.None? ==> forall j: nat :: k <= j ==> !OccursAt(s, p, j)
    decreases |s| - k
  {
    if k + |p| > |s| then None
    else if s[k..k + |p|] == p then Some(k)
    else IndexFrom(s, p, k + 1)
  }

  /** `String.prototype.indexOf`, with `None` for JavaScript's -1. */
  function IndexOf(s: string, p: string): (r: Option<nat>)
    ensures r.Some? ==> FirstAt(s, p, r.value)
    ensures r.None? <==> forall j: nat :: !OccursAt(s, p, j)
  {
    IndexFrom(s, p, 0)
  }

  /** `s.replace(p, rep)` with a string pattern, for a replacement text without `$`: only the
      first occurrence is replaced, and a string without `p` comes back unchanged. JavaScript
      would also expand `$$`, `$&`, `` $` `` and `$'` inside `rep`; `rep` is inserted here as
      plain text, which is the same for the rendered numbers the resolver inserts. */
  function ReplaceFirst(s: string, p: string, rep: string): (r: string)
    ensures (forall j: nat :: !OccursAt(s, p, j)) ==> r == s
    ensures forall i: nat :: FirstAt(s, p, i) ==> r == s[..i] + rep + s[i + |p|..]
  {
    match IndexOf(s, p)
    case None => s
    case Some(i) => s[..i] + rep + s[i + |p|..]
  }

  /** `getTileUrl(coord, zoom)` of an overlay whose template is `template`. */
  function Resolve(template: string, coord: TileCoord, zoom: int): string {
    var withZoom := ReplaceFirst(template, ZoomKey, NumberString(zoom));
    var withColumn := ReplaceFirst(withZoom, ColumnKey, NumberString(coord.x));
    ReplaceFirst(withColumn, RowKey, NumberString(coord.y))
  }

  // ---------------------------------------------------------------------------
  // Reference definitions: how many times a placeholder occurs, and the substitution of
  // every placeholder occurrence at once
  // ---------------------------------------------------------------------------

  function Count(s: string, q: string): nat
    decreases |s|
  {
    if |s| == 0 then 0 else (if OccursAt(s, q, 0) then 1 else 0) + Count(s[1..], q)
  }

  /** A template as the backend is meant to send it: each placeholder exactly once. */
  predicate WellFormed(template: string) {
    Count(template, ZoomKey) == 1 && Count(template, ColumnKey) == 1 && Count(template, RowKey) == 1
  }

  predicate KeyAtStart(s: string) {
    OccursAt(s, ZoomKey, 0) || OccursAt(s, ColumnKey, 0) || OccursAt(s, RowKey, 0)
  }

  /** How much of a non-empty `s` the substitution consumes in one step: a whole placeholder,
      or one character. */
  function HeadLength(s: string): (n: nat)
    requires |s| > 0
    ensures 1 <= n <= |s|
  {
    if KeyAtStart(s) then 3 else 1
  }

  /** What the substitution writes for that step. */
  function HeadValue(s: string, coord: TileCoord, zoom: int): string
    requires |s| > 0
  {
    if OccursAt(s, ZoomKey, 0) then NumberString(zoom)
    else if OccursAt(s, ColumnKey, 0) then NumberString(coord.x)
    else if OccursAt(s, RowKey, 0) then NumberString(coord.y)
    else [s[0]]
  }

  /** Every placeholder occurrence, scanning left to right, replaced by its value. */
  function Expand(s: string, coord: TileCoord, zoom: int): string
    decreases |s|
  {
    if |s| == 0 then []
    else HeadValue(s, coord, zoom) + Expand(s[HeadLength(s)..], coord, zoom)
  }

  // ---------------------------------------------------------------------------
  // Occurrences across a cut
  // ---------------------------------------------------------------------------

  /** No occurrence of `q` starts before position `c` and ends after it. */
  predicate NoAcross(s: string, q: string, c: nat) {
    forall k: nat :: k < c < k + |q| ==> !OccursAt(s, q, k)
  }

  predicate NoKeyAcross(s: string, c: nat) {
    NoAcross(s, ZoomKey, c) && NoAcross(s, ColumnKey, c) && NoAcross(s, RowKey, c)
  }

  lemma OccursShift(s: string, m: nat, q: string, k: nat)
    requires m <= |s|
    ensures OccursAt(s[m..], q, k) <==> OccursAt(s, q, k + m)
  {
    if k + m + |q| <= |s| {
      assert s[m..][k..k + |q|] == s[k + m..k + m + |q|];
    }
  }

  lemma OccursExtend(a: string, b: string, q: string, k: nat)
    requires OccursAt(a, q, k)
    ensures OccursAt(a + b, q, k)
  {
    assert (a + b)[k..k + |q|] == a[k..k + |q|];
  }

  lemma NoKeyAcrossShift(s: string, m: nat, c: nat)
    requires m <= c && m <= |s|
    requires NoKeyAcross(s, c)
    ensures NoKeyAcross(s[m..], c - m)
  {
    forall q, k: nat | IsKey(q) && k < c - m < k + |q|
      ensures !OccursAt(s[m..], q, k)
    {
      OccursShift(s, m, q, k);
    }
  }

  /** Splitting where no occurrence of `q` straddles the cut splits the count. */
  lemma {:induction false} CountSplit(a: string, b: string, q: string)
    requires NoAcross(a + b, q, |a|)
    ensures Count(a + b, q) == Count(a, q) + Count(b, q)
    decreases |a|
  {
    if a == [] {
      assert a + b == b;
    } else {
      var ab := a + b;
      assert ab[1..] == a[1..] + b;
      forall k: nat | k < |a| - 1 < k + |q|
        ensures !OccursAt(a[1..] + b, q, k)
      {
        OccursShift(ab, 1, q, k);
      }
      CountSplit(a[1..], b, q);
      if |q| <= |a| {
        assert ab[..|q|] == a[..|q|];
      }
    }
  }

  /** Where no placeholder straddles a cut, the first step of the substitution is the same
      before and after appending text past the cut. */
  lemma HeadAgree(a: string, b: string, coord: TileCoord, zoom: int)
    requires |a| > 0 && NoKeyAcross(a + b, |a|)
    ensures HeadLength(a + b) == HeadLength(a)
    ensures HeadValue(a + b, coord, zoom) == HeadValue(a, coord, zoom)
  {
    if |a| >= 3 {
      assert (a + b)[..3] == a[..3];
    }
    assert (a + b)[0] == a[0];
  }

  /** The same for the full substitution. */
  lemma {:induction false} ExpandSplit(a: string, b: string, coord: TileCoord, zoom: int)
    requires NoKeyAcross(a + b, |a|)
    ensures Expand(a + b, coord, zoom) == Expand(a, coord, zoom) + Expand(b, coord, zoom)
    decreases |a|
  {
    var ab := a + b;
    if a == [] {
      assert ab == b;
    } else {
      HeadAgree(a, b, coord, zoom);
      var n := HeadLength(a);
      assert ab[n..] == a[n..] + b;
      NoKeyAcrossShift(ab, n, |a|);
      ExpandSplit(a[n..], b, coord, zoom);
    }
  }

  // ---------------------------------------------------------------------------
  // Placeholders cannot straddle a placeholder or a rendered number
  // ---------------------------------------------------------------------------

  predicate AllNumberChars(s: string) {
    forall i :: 0 <= i < |s| ==> IsNumberChar(s[i])
  }

  lemma KeyChars(s: string, q: string, k: nat, j: nat)
    requires IsKey(q) && OccursAt(s, q, k) && j < 3
    ensures s[k + j] == q[j]
    ensures j == 0 <==> s[k + j] == '{'
    ensures !IsNumberChar(s[k + j])
  {
    assert s[k..k + 3][j] == s[k + j];
  }

  /** Around a run of number characters at `c .. c + len`, no placeholder crosses either end. */
  lemma NoKeyAcrossNumber(s: string, c: nat, len: nat)
    requires 1 <= len && c + len <= |s|
    requires forall i :: c <= i < c + len ==> IsNumberChar(s[i])
    ensures NoKeyAcross(s, c) && NoKeyAcross(s, c + len)
  {
    forall q, k: nat | IsKey(q) && k < c < k + |q|
      ensures !OccursAt(s, q, k)
    {
      if OccursAt(s, q, k) {
        KeyChars(s, q, k, c - k);
      }
    }
    forall q, k: nat | IsKey(q) && k < c + len < k + |q|
      ensures !OccursAt(s, q, k)
    {
      if OccursAt(s, q, k) {
        KeyChars(s, q, k, c + len - 1 - k);
      }
    }
  }

  /** Around an occurrence of a placeholder at `i`, no placeholder crosses either end. */
  lemma NoKeyAcrossKey(s: string, p: string, i: nat)
    requires IsKey(p) && OccursAt(s, p, i)
    ensures NoKeyAcross(s, i) && NoKeyAcross(s, i + 3)
  {
    forall q, k: nat | IsKey(q) && k < i < k + |q|
      ensures !OccursAt(s, q, k)
    {
      if OccursAt(s, q, k) {
        KeyChars(s, q, k, i - k);
        KeyChars(s, p, i, 0);
      }
    }
    forall q, k: nat | IsKey(q) && k < i + 3 < k + |q|
      ensures !OccursAt(s, q, k)
    {
      if OccursAt(s, q, k) {
        KeyChars(s, q, k, 0);
        KeyChars(s, p, i, k - i);
      }
    }
  }

  // ---------------------------------------------------------------------------
  // Counting facts
  // ---------------------------------------------------------------------------

  lemma {:induction false} CountZero(s: string, q: string)
    requires |q| > 0
    ensures Count(s, q) == 0 <==> forall k: nat :: !OccursAt(s, q, k)
    decreases |s|
  {
    if |s| > 0 {
      CountZero(s[1..], q);
      forall k: nat
        ensures OccursAt(s[1..], q, k) <==> OccursAt(s, q, k + 1)
      {
        OccursShift(s, 1, q, k);
      }
      if Count(s, q) == 0 {
        forall k: nat
          ensures !OccursAt(s, q, k)
        {
          if k > 0 {
            assert !OccursAt(s[1..], q, k - 1);
          }
        }
      }
    }
  }

  lemma CountNumber(d: string, q: string)
    requires IsKey(q) && AllNumberChars(d)
    ensures Count(d, q) == 0
  {
    forall k: nat
      ensures !OccursAt(d, q, k)
    {
      if OccursAt(d, q, k) {
        KeyChars(d, q, k, 0);
      }
    }
    CountZero(d, q);
  }

  lemma CountAfterKey(p: string, rest: string, q: string)
    requires IsKey(p) && IsKey(q)
    ensures Count(p + rest, q) == (if p == q then 1 else 0) + Count(rest, q)
  {
    NoKeyAcrossKey(p + rest, p, 0);
    assert (p + rest)[..3] == p;
    assert (p + rest)[3..] == rest;
    CountSplit(p, rest, q);
    assert p[..3] == p;
    assert p[1..][1..][1..] == [];
  }

  lemma SplitAtOccurrence(s: string, p: string, i: nat)
    requires OccursAt(s, p, i)
    ensures s == s[..i] + s[i..] && s[i..] == p + s[i + |p|..]
  {
    assert s[i..] == s[i..i + |p|] + s[i + |p|..];
  }

  /** Counting around an occurrence of a placeholder. */
  lemma CountAroundKey(s: string, p: string, i: nat, q: string)
    requires IsKey(p) && IsKey(q) && OccursAt(s, p, i)
    ensures Count(s, q) == Count(s[..i], q) + (if p == q then 1 else 0) + Count(s[i + 3..], q)
  {
    var a, rest, b := s[..i], s[i..], s[i + 3..];
    SplitAtOccurrence(s, p, i);
    NoKeyAcrossKey(s, p, i);
    CountSplit(a, rest, q);
    CountAfterKey(p, b, q);
  }

  /** Counting around a rendered number. */
  lemma CountAroundNumber(a: string, d: string, b: string, q: string)
    requires IsKey(q) && |d| >= 1 && AllNumberChars(d)
    ensures Count(a + d + b, q) == Count(a, q) + Count(b, q)
  {
    NoKeyAcrossNumber(a + d + b, |a|, |d|);
    CountSplit(a + d, b, q);
    NoKeyAcrossNumber(a + d, |a|, |d|);
    CountSplit(a, d, q);
    CountNumber(d, q);
  }

  /** One replacement step removes one occurrence of that placeholder, if there is one, and
      leaves the number of occurrences of every placeholder unchanged otherwise. */
  lemma ReplaceCount(s: string, p: string, d: string, q: string)
    requires IsKey(p) && IsKey(q)
    requires |d| >= 1 && AllNumberChars(d)
    ensures Count(ReplaceFirst(s, p, d), q) ==
            if p == q && Count(s, q) > 0 then Count(s, q) - 1 else Count(s, q)
  {
    CountZero(s, p);
    var idx := IndexOf(s, p);
    if idx.Some? {
      var i := idx.value;
      assert ReplaceFirst(s, p, d) == s[..i] + d + s[i + 3..];
      CountAroundKey(s, p, i, q);
      CountAroundNumber(s[..i], d, s[i + 3..], q);
    }
  }

  // ---------------------------------------------------------------------------
  // Substitution facts
  // ---------------------------------------------------------------------------

  lemma {:induction false} ExpandKeyFree(s: string, coord: TileCoord, zoom: int)
    requires Count(s, ZoomKey) == 0 && Count(s, ColumnKey) == 0 && Count(s, RowKey) == 0
    ensures Expand(s, coord, zoom) == s
    decreases |s|
  {
    if |s| > 0 {
      CountZero(s, ZoomKey);
      CountZero(s, ColumnKey);
      CountZero(s, RowKey);
      forall q, k: nat | IsKey(q)
        ensures !OccursAt(s[1..], q, k)
      {
        OccursShift(s, 1, q, k);
      }
      CountZero(s[1..], ZoomKey);
      CountZero(s[1..], ColumnKey);
      CountZero(s[1..], RowKey);
      ExpandKeyFree(s[1..], coord, zoom);
    }
  }

  lemma ExpandAfterKey(p: string, rest: string, coord: TileCoord, zoom: int)
    requires IsKey(p)
    ensures Expand(p + rest, coord, zoom) == KeyValue(p, coord, zoom) + Expand(rest, coord, zoom)
  {
    assert (p + rest)[..3] == p;
    assert (p + rest)[3..] == rest;
    assert ZoomKey[1] == 'z' && ColumnKey[1] == 'x' && RowKey[1] == 'y';
  }

  /** Substituting around an occurrence of a placeholder. */
  lemma ExpandAroundKey(s: string, p: string, i: nat, coord: TileCoord, zoom: int)
    requires IsKey(p) && OccursAt(s, p, i)
    ensures Expand(s, coord, zoom) ==
            Expand(s[..i], coord, zoom) + KeyValue(p, coord, zoom) + Expand(s[i + 3..], coord, zoom)
  {
    var a, rest, b := s[..i], s[i..], s[i + 3..];
    SplitAtOccurrence(s, p, i);
    NoKeyAcrossKey(s, p, i);
    ExpandSplit(a, rest, coord, zoom);
    ExpandAfterKey(p, b, coord, zoom);
  }

  /** Substituting around a rendered number keeps the number. */
  lemma ExpandAroundNumber(a: string, d: string, b: string, coord: TileCoord, zoom: int)
    requires |d| >= 1 && AllNumberChars(d)
    ensures Expand(a + d + b, coord, zoom) == Expand(a, coord, zoom) + d + Expand(b, coord, zoom)
  {
    NoKeyAcrossNumber(a + d + b, |a|, |d|);
    ExpandSplit(a + d, b, coord, zoom);
    NoKeyAcrossNumber(a + d, |a|, |d|);
    ExpandSplit(a, d, coord, zoom);
    CountNumber(d, ZoomKey);
    CountNumber(d, ColumnKey);
    CountNumber(d, RowKey);
    ExpandKeyFree(d, coord, zoom);
  }

  lemma KeyValueShape(p: string, coord: TileCoord, zoom: int)
    ensures |KeyValue(p, coord, zoom)| >= 1 && AllNumberChars(KeyValue(p, coord, zoom))
  {
    NumberStringShape(zoom);
    NumberStringShape(coord.x);
    NumberStringShape(coord.y);
  }

  /** One replacement step with the placeholder's own value does not change what the full
      substitution yields. */
  lemma ExpandReplaceStep(s: string, p: string, coord: TileCoord, zoom: int)
    requires IsKey(p)
    ensures Expand(ReplaceFirst(s, p, KeyValue(p, coord, zoom)), coord, zoom) == Expand(s, coord, zoom)
  {
    var d := KeyValue(p, coord, zoom);
    KeyValueShape(p, coord, zoom);
    var idx := IndexOf(s, p);
    if idx.Some? {
      var i := idx.value;
      assert ReplaceFirst(s, p, d) == s[..i] + d + s[i + 3..];
      ExpandAroundKey(s, p, i, coord, zoom);
      ExpandAroundNumber(s[..i], d, s[i + 3..], coord, zoom);
    }
  }

  // ---------------------------------------------------------------------------
  // Properties of the resolver
  // ---------------------------------------------------------------------------

  /** On any template, each placeholder loses its first occurrence (when it has one) and keeps
      the rest: a missing placeholder is skipped, a repeated one is only partly substituted. */
  lemma ResolveCounts(template: string, coord: TileCoord, zoom: int, q: string)
    requires IsKey(q)
    ensures Count(Resolve(template, coord, zoom), q) ==
            if Count(template, q) > 0 then Count(template, q) - 1 else 0
  {
    NumberStringShape(zoom);
    NumberStringShape(coord.x);
    NumberStringShape(coord.y);
    var s1 := ReplaceFirst(template, ZoomKey, NumberString(zoom));
    var s2 := ReplaceFirst(s1, ColumnKey, NumberString(coord.x));
    ReplaceCount(template, ZoomKey, NumberString(zoom), q);
    ReplaceCount(s1, ColumnKey, NumberString(coord.x), q);
    ReplaceCount(s2, RowKey, NumberString(coord.y), q);
  }

  /** On a well-formed template, the resolver substitutes every placeholder by the decimal zoom,
      column and row, and leaves no placeholder behind. */
  lemma ResolveWellFormed(template: string, coord: TileCoord, zoom: int)
    requires WellFormed(template)
    ensures Resolve(template, coord, zoom) == Expand(template, coord, zoom)
    ensures Count(Resolve(template, coord, zoom), ZoomKey) == 0
    ensures Count(Resolve(template, coord, zoom), ColumnKey) == 0
    ensures Count(Resolve(template, coord, zoom), RowKey) == 0
  {
    var s1 := ReplaceFirst(template, ZoomKey, NumberString(zoom));
    var s2 := ReplaceFirst(s1, ColumnKey, NumberString(coord.x));
    ExpandReplaceStep(template, ZoomKey, coord, zoom);
    ExpandReplaceStep(s1, ColumnKey, coord, zoom);
    ExpandReplaceStep(s2, RowKey, coord, zoom);
    ResolveCounts(template, coord, zoom, ZoomKey);
    ResolveCounts(template, coord, zoom, ColumnKey);
    ResolveCounts(template, coord, zoom, RowKey);
    ExpandKeyFree(Resolve(template, coord, zoom), coord, zoom);
  }

  /** A template without placeholders is fetched as it is, for every tile. */
  lemma ResolveKeyFree(template: string, coord: TileCoord, zoom: int)
    requires Count(template, ZoomKey) == 0 && Count(template, ColumnKey) == 0 && Count(template, RowKey) == 0
    ensures Resolve(template, coord, zoom) == template
  {
    CountZero(template, ZoomKey);
    CountZero(template, ColumnKey);
    CountZero(template, RowKey);
  }

  // ---------------------------------------------------------------------------
  // Worked examples
  // ---------------------------------------------------------------------------

  /** A first occurrence found by inspection is the one the search returns. */
  lemma FirstReplaced(s: string, p: string, i: nat, rep: string)
    requires OccursAt(s, p, i)
    requires forall j: nat :: j < i ==> !OccursAt(s, p, j)
    ensures ReplaceFirst(s, p, rep) == s[..i] + rep + s[i + |p|..]
  {
  }

  /** A placeholder cannot start where there is no opening brace followed by its letter. */
  lemma NoKeyBefore(s: string, q: string, i: nat)
    requires IsKey(q) && i < |s|
    requires forall j :: 0 <= j < i ==> s[j] != '{' || s[j + 1] != q[1]
    ensures forall j: nat :: j < i ==> !OccursAt(s, q, j)
  {
    forall j: nat | j < i && OccursAt(s, q, j)
      ensures false
    {
      KeyChars(s, q, j, 0);
      KeyChars(s, q, j, 1);
    }
  }

  lemma SmallNumberString(n: int)
    requires 0 <= n < 10
    ensures NumberString(n) == [DigitChar(n)]
  {
  }

  /** Replacing a placeholder that follows brace-free text. */
  lemma ReplaceAfterPlain(a: string, p: string, b: string, rep: string)
    requires IsKey(p)
    requires forall j :: 0 <= j < |a| ==> a[j] != '{'
    ensures ReplaceFirst(a + p + b, p, rep) == a + rep + b
  {
    var s := a + p + b;
    NoKeyBefore(s, p, |a|);
    assert s[|a|..|a| + 3] == p;
    FirstReplaced(s, p, |a|, rep);
    assert s[..|a|] == a && s[|a| + 3..] == b;
  }

  predicate BraceFree(s: string) {
    forall j :: 0 <= j < |s| ==> s[j] != '{'
  }

  /** The usual layout: zoom, column and row placeholders in that order, separated by text
      that holds no opening brace. */
  lemma BraceFreeJoin(a: string, n: string, b: string)
    requires BraceFree(a) && AllNumberChars(n) && BraceFree(b)
    ensures BraceFree(a + n + b)
  {
    forall j | 0 <= j < |a + n + b|
      ensures (a + n + b)[j] != '{'
    {
      if j < |a| {
        assert (a + n + b)[j] == a[j];
      } else if j < |a| + |n| {
        assert (a + n + b)[j] == n[j - |a|];
      } else {
        assert (a + n + b)[j] == b[j - |a| - |n|];
      }
    }
  }

  lemma Reassociate(a: string, k: string, b: string, x: string, c: string, y: string, d: string)
    ensures a + k + b + x + c + y + d == a + k + (b + x + c + y + d)
    ensures a + k + b + x + c == a + k + (b + x + c)
  {
  }

  lemma ZoomStep(a: string, b: string, c: string, d: string, rep: string)
    requires BraceFree(a)
    ensures ReplaceFirst(a + ZoomKey + b + ColumnKey + c + RowKey + d, ZoomKey, rep) ==
            a + rep + b + ColumnKey + c + RowKey + d
  {
    ReplaceAfterPlain(a, ZoomKey, b + ColumnKey + c + RowKey + d, rep);
    Reassociate(a, ZoomKey, b, ColumnKey, c, RowKey, d);
    Reassociate(a, rep, b, ColumnKey, c, RowKey, d);
  }

  lemma ColumnStep(a: string, c: string, d: string, rep: string)
    requires BraceFree(a)
    ensures ReplaceFirst(a + ColumnKey + c + RowKey + d, ColumnKey, rep) == a + rep + c + RowKey + d
  {
    ReplaceAfterPlain(a, ColumnKey, c + RowKey + d, rep);
    Reassociate(a, ColumnKey, c, RowKey, d, [], []);
    Reassociate(a, rep, c, RowKey, d, [], []);
  }

  lemma ResolveSteps(t: string, coord: TileCoord, zoom: int, s1: string, s2: string, r: string)
    requires ReplaceFirst(t, ZoomKey, NumberString(zoom)) == s1
    requires ReplaceFirst(s1, ColumnKey, NumberString(coord.x)) == s2
    requires ReplaceFirst(s2, RowKey, NumberString(coord.y)) == r
    ensures Resolve(t, coord, zoom) == r
  {
  }

  /** The usual layout: zoom, column and row placeholders in that order, separated by text
      without an opening brace; the result is the layout with the three numbers in place. */
  lemma ResolveOrderedLayout(a: string, b: string, c: string, d: string, coord: TileCoord, zoom: int)
    requires BraceFree(a) && BraceFree(b) && BraceFree(c)
    ensures Resolve(a + ZoomKey + b + ColumnKey + c + RowKey + d, coord, zoom) ==
            a + NumberString(zoom) + b + NumberString(coord.x) + c + NumberString(coord.y) + d
  {
    var nz, nx, ny := NumberString(zoom), NumberString(coord.x), NumberString(coord.y);
    KeyValueShape(ZoomKey, coord, zoom);
    KeyValueShape(ColumnKey, coord, zoom);
    ZoomStep(a, b, c, d, nz);
    BraceFreeJoin(a, nz, b);
    ColumnStep(a + nz + b, c, d, nx);
    BraceFreeJoin(a + nz + b, nx, c);
    ReplaceAfterPlain(a + nz + b + nx + c, RowKey, d, ny);
    ResolveSteps(a + ZoomKey + b + ColumnKey + c + RowKey + d, coord, zoom,
                 a + nz + b + ColumnKey + c + RowKey + d, a + nz + b + nx + c + RowKey + d,
                 a + nz + b + nx + c + ny + d);
  }

  lemma ExampleDigits()
    ensures "https://host/" + NumberString(5) + "/" + NumberString(3) + "/" + NumberString(2) + ".png"
            == "https://host/5/3/2.png"
  {
    SmallNumberString(5);
    SmallNumberString(3);
    SmallNumberString(2);
  }

  /** The address of tile (3, 2) at zoom 5 for the template `https://host/{z}/{x}/{y}.png`. */
  lemma ExampleAddress(template: string)
    requires template == "https://host/{z}/{x}/{y}.png"
    ensures Resolve(template, TileCoord(3, 2), 5) == "https://host/5/3/2.png"
  {
    assert template == "https://host/" + ZoomKey + "/" + ColumnKey + "/" + RowKey + ".png";
    ResolveOrderedLayout("https://host/", "/", "/", ".png", TileCoord(3, 2), 5);
    ExampleDigits();
  }

  /** A repeated placeholder: only its first occurrence is substituted. */
  lemma ExampleRepeated(template: string)
    requires template == "{z}/{z}/{x}/{y}"
    ensures Resolve(template, TileCoord(3, 2), 5) == "5/{z}/3/2"
  {
    SmallNumberString(5);
    SmallNumberString(3);
    SmallNumberString(2);
    ZoomAfterRepeat(template);
    ColumnAfterRepeat("5/{z}/{x}/{y}");
    RowAfterRepeat("5/{z}/3/{y}");
  }

  lemma ZoomAfterRepeat(t: string)
    requires t == "{z}/{z}/{x}/{y}"
    ensures ReplaceFirst(t, ZoomKey, "5") == "5/{z}/{x}/{y}"
  {
    assert t[0..3] == ZoomKey;
    FirstReplaced(t, ZoomKey, 0, "5");
    assert t[..0] + "5" + t[3..] == "5/{z}/{x}/{y}";
  }

  lemma RowAfterRepeat(s2: string)
    requires s2 == "5/{z}/3/{y}"
    ensures ReplaceFirst(s2, RowKey, "2") == "5/{z}/3/2"
  {
    NoKeyBefore(s2, RowKey, 8);
    assert s2[8..11] == RowKey;
    FirstReplaced(s2, RowKey, 8, "2");
    assert s2[..8] + "2" + s2[11..] == "5/{z}/3/2";
  }

  lemma ColumnAfterRepeat(s1: string)
    requires s1 == "5/{z}/{x}/{y}"
    ensures ReplaceFirst(s1, ColumnKey, "3") == "5/{z}/3/{y}"
  {
    NoKeyBefore(s1, ColumnKey, 6);
    assert s1[6..9] == ColumnKey;
    FirstReplaced(s1, ColumnKey, 6, "3");
    assert s1[..6] + "3" + s1[9..] == "5/{z}/3/{y}";
  }
}
