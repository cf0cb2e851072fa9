/** The pieces of Foundation that the modelled code relies on: byte buffers, errors,
    URL responses, character sets, and the two string operations `rangeOfCharacter(from:)`
    and `trimmingCharacters(in:)`. */
module Foundation {
  import opened Swift

  /** `Data`: a buffer of bytes. `Data()` is the empty buffer. */
  type Data = seq<bv8>

  /** A Swift `Error` value. Every Swift error bridges to an `NSError` with a domain and a
      code; `URLError` is the one the modelled code constructs itself. */
  datatype Error = URLError(code: int) | NSError(domain: string, code: int)

  /** `URLError.Code.badURL` (NSURLErrorBadURL). */
  const BadURL: int := -1000

  /** A `URLResponse` that is not an HTTP response, or an `HTTPURLResponse` with its status code. */
  datatype URLResponse = URLResponse | HTTPURLResponse(statusCode: int)

  /** A `CharacterSet`, as the set of characters it contains. */
  type CharacterSet = set<char>

  /** `CharacterSet.decimalDigits`, restricted to the ASCII digits. */
  const DecimalDigits: CharacterSet := {'0', '1', '2', '3', '4', '5', '6', '7', '8', '9'}

  /** `CharacterSet.whitespacesAndNewlines`: the space separators (general category Zs), the
      line and paragraph separators (Zl, Zp), U+0009 through U+000D and U+0085. */
  const WhitespacesAndNewlines: CharacterSet := {
    '\t', '\n', '\U{000B}', '\U{000C}', '\r', ' ', '\U{0085}', '\U{00A0}', '\U{1680}',
    '\U{2000}', '\U{2001}', '\U{2002}', '\U{2003}', '\U{2004}', '\U{2005}', '\U{2006}',
    '\U{2007}', '\U{2008}', '\U{2009}', '\U{200A}', '\U{2028}', '\U{2029}', '\U{202F}',
    '\U{205F}', '\U{3000}'
  }

  /** Some character of `s` belongs to `cs`. */
  ghost predicate ContainsAny(s: string, cs: CharacterSet)
  {
    exists k :: 0 <= k < |s| && s[k] in cs
  }

  /** `s.rangeOfCharacter(from: cs)`: nil when no character of `s` is in `cs`, otherwise the
      position of the first one (the start of the one-character range Foundation returns). */
  function RangeOfCharacter(s: string, cs: CharacterSet): (r: Option<nat>)
    ensures r.None? <==> !ContainsAny(s, cs)
    ensures r.Some? ==> r.value < |s| && s[r.value] in cs
    ensures r.Some? ==> forall k :: 0 <= k < r.value ==> s[k] !in cs
  {
    if |s| == 0 then None
    else if s[0] in cs then Some(0)
    else
      match RangeOfCharacter(s[1..], cs)
      case None =>
        assert forall k :: 1 <= k < |s| ==> s[k] == s[1..][k - 1];
        None
      case Some(k) =>
        assert s[k + 1] == s[1..][k];
        Some(k + 1)
  }

  /** How many characters at the front of `s` belong to `cs`. */
  function LeadingCount(s: string, cs: CharacterSet): (n: nat)
    ensures n <= |s|
    ensures forall k :: 0 <= k < n ==> s[k] in cs
    ensures n < |s| ==> s[n] !in cs
  {
    if |s| > 0 && s[0] in cs then
      var m := LeadingCount(s[1..], cs);
      assert forall k :: 1 <= k <= m ==> s[k] == s[1..][k - 1];
      1 + m
    else 0
  }

  /** How many characters at the back of `s` belong to `cs`. */
  function TrailingCount(s: string, cs: CharacterSet): (n: nat)
    ensures n <= |s|
    ensures forall k :: |s| - n <= k < |s| ==> s[k] in cs
    ensures n < |s| ==> s[|s| - 1 - n] !in cs
  {
    if |s| > 0 && s[|s| - 1] in cs then
      var m := TrailingCount(s[..|s| - 1], cs);
      assert forall k :: 0 <= k < |s| - 1 ==> s[k] == s[..|s| - 1][k];
      1 + m
    else 0
  }

  /** `s[i..j]` is what is left of `s` once every character of `cs` is stripped from both
      ends: everything outside `[i, j)` is in `cs`, and a non-empty middle starts and ends
      with a character that is not. */
  ghost predicate TrimBounds(s: string, cs: CharacterSet, i: int, j: int)
  {
    && 0 <= i <= j <= |s|
    && (forall k :: 0 <= k < i ==> s[k] in cs)
    && (forall k :: j <= k < |s| ==> s[k] in cs)
    && (i < j ==> s[i] !in cs && s[j - 1] !in cs)
  }

  /** `r` is `s` with the characters of `cs` removed from its start and its end, and nothing
      else removed: a contiguous piece of `s`, so interior characters of `cs` stay. */
  ghost predicate IsTrimOf(r: string, s: string, cs: CharacterSet)
  {
    exists i, j :: TrimBounds(s, cs, i, j) && r == s[i..j]
  }

  /** The bounds `TrimmingCharacters` cuts at are the ones `TrimBounds` describes. */
  lemma CutIsTrimBounds(s: string, cs: CharacterSet, i: nat, t: nat)
    requires i == LeadingCount(s, cs) && t == TrailingCount(s[i..], cs)
    ensures TrimBounds(s, cs, i, |s| - t)
  {
    var u := s[i..];
    forall k | |s| - t <= k < |s| ensures s[k] in cs {
      assert s[k] == u[k - i];
    }
    if i < |s| - t {
      assert s[|s| - t - 1] == u[|u| - 1 - t];
    }
  }

  /** `s.trimmingCharacters(in: cs)`. */
  function TrimmingCharacters(s: string, cs: CharacterSet): (r: string)
    ensures IsTrimOf(r, s, cs)
  {
    var i := LeadingCount(s, cs);
    var t := TrailingCount(s[i..], cs);
    CutIsTrimBounds(s, cs, i, t);
    s[i..|s| - t]
  }

  /** Two sets of trim bounds of the same string, one of them non-empty, are the same. */
  lemma TrimBoundsUnique(s: string, cs: CharacterSet, i1: int, j1: int, i2: int, j2: int)
    requires TrimBounds(s, cs, i1, j1) && TrimBounds(s, cs, i2, j2) && i1 < j1
    ensures i1 == i2 && j1 == j2
  {
    assert s[i1] !in cs && s[j1 - 1] !in cs;
    assert i2 < j2;
    assert i1 <= i2 && i2 <= i1;
    assert j1 <= j2 && j2 <= j1;
  }

  /** Two trims of the same string agree: the stripped ends are determined by `s` and `cs`. */
  lemma TrimOfUnique(r1: string, r2: string, s: string, cs: CharacterSet)
    requires IsTrimOf(r1, s, cs) && IsTrimOf(r2, s, cs)
    ensures r1 == r2
  {
    var i1, j1 :| TrimBounds(s, cs, i1, j1) && r1 == s[i1..j1];
    var i2, j2 :| TrimBounds(s, cs, i2, j2) && r2 == s[i2..j2];
    if i1 < j1 {
      TrimBoundsUnique(s, cs, i1, j1, i2, j2);
    } else if i2 < j2 {
      TrimBoundsUnique(s, cs, i2, j2, i1, j1);
    }
  }

  /** `TrimmingCharacters` is exactly the trim that `IsTrimOf` describes. */
  lemma TrimCharacterized(r: string, s: string, cs: CharacterSet)
    ensures IsTrimOf(r, s, cs) <==> r == TrimmingCharacters(s, cs)
  {
    if IsTrimOf(r, s, cs) {
      TrimOfUnique(r, TrimmingCharacters(s, cs), s, cs);
    }
  }

  /** A string with nothing of `cs` at either end is left as it is. */
  lemma TrimKeepsTrimmed(s: string, cs: CharacterSet)
    requires s == [] || (s[0] !in cs && s[|s| - 1] !in cs)
    ensures TrimmingCharacters(s, cs) == s
  {
    assert TrimBounds(s, cs, 0, |s|);
    assert s == s[0..|s|];
    TrimOfUnique(s, TrimmingCharacters(s, cs), s, cs);
  }

  /** Trimming twice is trimming once. */
  lemma TrimIdempotent(s: string, cs: CharacterSet)
    ensures TrimmingCharacters(TrimmingCharacters(s, cs), cs) == TrimmingCharacters(s, cs)
  {
    TrimKeepsTrimmed(TrimmingCharacters(s, cs), cs);
  }

  /** Padding a trimmed string with characters of `cs` on both sides and trimming it again
      gives back that string, with its interior untouched. */
  lemma TrimStripsPadding(front: string, middle: string, back: string, cs: CharacterSet)
    requires forall k :: 0 <= k < |front| ==> front[k] in cs
    requires forall k :: 0 <= k < |back| ==> back[k] in cs
    requires middle == [] || (middle[0] !in cs && middle[|middle| - 1] !in cs)
    ensures TrimmingCharacters(front + middle + back, cs) == middle
  {
    var s := front + middle + back;
    var i, j := |front|, |front| + |middle|;
    assert forall k :: 0 <= k < i ==> s[k] == front[k];
    assert forall k :: i <= k < j ==> s[k] == middle[k - i];
    assert forall k :: j <= k < |s| ==> s[k] == back[k - j];
    assert TrimBounds(s, cs, i, j);
    assert s[i..j] == middle;
    TrimOfUnique(middle, TrimmingCharacters(s, cs), s, cs);
  }
}
