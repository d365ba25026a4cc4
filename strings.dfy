/** The two string helpers of the test driver: `trim2`, which strips a set of
    characters from both ends of a string, and `explode`, which cuts the typed
    suite-selection line into trimmed, non-empty tokens.

    A C string of "characters to match" (`szTrim`, `separators`) is a `string`
    here, and a character matches when it occurs in it. `std::string::npos`
    becomes `None`. */
module StringUtil {
  import opened Options

  /** Default trim set of `trim2`: space, tab and newline. */
  const DefaultTrim: string := " \t\n"

  /** Default separator set of `explode`: space and tab. */
  const DefaultSeparators: string := " \t"

  // ---------------------------------------------------------------------
  // The searches of std::string used by trim2 and explode
  // ---------------------------------------------------------------------

  /** `s.find_first_of(chars, 0)` as a value: the first position holding a
      character from `chars`, or `None` when there is none. */
  function FirstIndexOf(s: string, chars: string): (r: Option<nat>)
    ensures r.Some? ==> r.value < |s| && s[r.value] in chars
    ensures r.Some? ==> forall k :: 0 <= k < r.value ==> s[k] !in chars
    ensures r.None? ==> forall k :: 0 <= k < |s| ==> s[k] !in chars
  {
    if s == [] then None
    else if s[0] in chars then Some(0)
    else match FirstIndexOf(s[1..], chars)
      case None => None
      case Some(p) => Some(p + 1)
  }

  /** A position that satisfies the description of the first match is the one
      FirstIndexOf returns. */
  lemma FirstIndexOfUnique(s: string, chars: string, p: nat)
    requires p < |s| && s[p] in chars
    requires forall k :: 0 <= k < p ==> s[k] !in chars
    ensures FirstIndexOf(s, chars) == Some(p)
  {
  }

  /** `s.find_first_of(chars, 0)`: a left-to-right scan. */
  method FindFirstOf(s: string, chars: string) returns (pos: Option<nat>)
    ensures pos == FirstIndexOf(s, chars)
    ensures pos.Some? ==> pos.value < |s| && s[pos.value] in chars
  {
    var i := 0;
    while i < |s| && s[i] !in chars
      invariant 0 <= i <= |s|
      invariant forall k :: 0 <= k < i ==> s[k] !in chars
    {
      i := i + 1;
    }
    if i < |s| {
      pos := Some(i);
      FirstIndexOfUnique(s, chars, i);
    } else {
      pos := None;
    }
  }

  /** `s.find_first_not_of(chars)`: the first position whose character is not
      in `chars`; `None` when every character is. */
  method FindFirstNotOf(s: string, chars: string) returns (pos: Option<nat>)
    ensures pos.Some? ==> pos.value < |s| && s[pos.value] !in chars
    ensures pos.Some? ==> forall k :: 0 <= k < pos.value ==> s[k] in chars
    ensures pos.None? ==> forall k :: 0 <= k < |s| ==> s[k] in chars
  {
    var i := 0;
    while i < |s| && s[i] in chars
      invariant 0 <= i <= |s|
      invariant forall k :: 0 <= k < i ==> s[k] in chars
    {
      i := i + 1;
    }
    pos := if i < |s| then Some(i) else None;
  }

  /** `s.find_last_not_of(chars)`: the last position whose character is not
      in `chars`; `None` when every character is. */
  method FindLastNotOf(s: string, chars: string) returns (pos: Option<nat>)
    ensures pos.Some? ==> pos.value < |s| && s[pos.value] !in chars
    ensures pos.Some? ==> forall k :: pos.value < k < |s| ==> s[k] in chars
    ensures pos.None? ==> forall k :: 0 <= k < |s| ==> s[k] in chars
  {
    var n := |s|;
    while n > 0 && s[n - 1] in chars
      invariant 0 <= n <= |s|
      invariant forall k :: n <= k < |s| ==> s[k] in chars
    {
      n := n - 1;
    }
    pos := if n > 0 then Some(n - 1) else None;
  }

  // ---------------------------------------------------------------------
  // trim2
  // ---------------------------------------------------------------------

  /** `s` without its run of trailing characters from `trim`. */
  function TrimRight(s: string, trim: string): string
  {
    if s != [] && s[|s| - 1] in trim then TrimRight(s[..|s| - 1], trim) else s
  }

  /** `s` without its run of leading characters from `trim`. */
  function TrimLeft(s: string, trim: string): string
  {
    if s != [] && s[0] in trim then TrimLeft(s[1..], trim) else s
  }

  /** What `trim2(s, trim)` leaves in `s`: the tail is cut first, then the head. */
  function Trimmed(s: string, trim: string): string
  {
    TrimLeft(TrimRight(s, trim), trim)
  }

  /** Cutting at a position that ends the last non-trim run is TrimRight. */
  lemma {:induction false} TrimRightAt(s: string, trim: string, j: nat)
    requires j <= |s|
    requires forall k :: j <= k < |s| ==> s[k] in trim
    requires j > 0 ==> s[j - 1] !in trim
    ensures TrimRight(s, trim) == s[..j]
    decreases |s| - j
  {
    if j < |s| {
      var s' := s[..|s| - 1];
      assert s'[..j] == s[..j];
      TrimRightAt(s', trim, j);
    } else {
      assert s[..j] == s;
    }
  }

  /** Starting at a position that begins the first non-trim run is TrimLeft. */
  lemma {:induction false} TrimLeftAt(s: string, trim: string, i: nat)
    requires i <= |s|
    requires forall k :: 0 <= k < i ==> s[k] in trim
    requires i < |s| ==> s[i] !in trim
    ensures TrimLeft(s, trim) == s[i..]
  {
    if i > 0 {
      assert s[1..][i - 1..] == s[i..];
      TrimLeftAt(s[1..], trim, i - 1);
    }
  }

  /** `trim2`: erase after the last character not in `trim`, then erase
      before the first one; a string made only of trim characters is
      emptied. The string passed by reference is the in/out pair here. */
  method Trim2(str: string, trim: string) returns (r: string)
    ensures r == Trimmed(str, trim)
  {
    r := str;
    var pos := FindLastNotOf(r, trim);
    if pos.Some? {
      r := r[..pos.value + 1];
      TrimRightAt(str, trim, pos.value + 1);
      var first := FindFirstNotOf(r, trim);
      if first.Some? {
        TrimLeftAt(r, trim, first.value);
        r := r[first.value..];
      }
    } else {
      TrimRightAt(str, trim, 0);
      r := [];
    }
  }

  /** TrimRight keeps a prefix and removes only trim characters. */
  lemma {:induction false} TrimRightShape(s: string, trim: string)
    ensures |TrimRight(s, trim)| <= |s|
    ensures TrimRight(s, trim) == s[..|TrimRight(s, trim)|]
    ensures forall k :: |TrimRight(s, trim)| <= k < |s| ==> s[k] in trim
    ensures TrimRight(s, trim) != [] ==> TrimRight(s, trim)[|TrimRight(s, trim)| - 1] !in trim
  {
    if s != [] && s[|s| - 1] in trim {
      var s' := s[..|s| - 1];
      TrimRightShape(s', trim);
      assert s'[..|TrimRight(s', trim)|] == s[..|TrimRight(s', trim)|];
    }
  }

  /** TrimLeft keeps a suffix and removes only trim characters. */
  lemma {:induction false} TrimLeftShape(s: string, trim: string)
    ensures |TrimLeft(s, trim)| <= |s|
    ensures TrimLeft(s, trim) == s[|s| - |TrimLeft(s, trim)|..]
    ensures forall k :: 0 <= k < |s| - |TrimLeft(s, trim)| ==> s[k] in trim
    ensures TrimLeft(s, trim) != [] ==> TrimLeft(s, trim)[0] !in trim
  {
    if s != [] && s[0] in trim {
      TrimLeftShape(s[1..], trim);
      assert s[1..][|s| - 1 - |TrimLeft(s[1..], trim)|..] == s[|s| - |TrimLeft(s[1..], trim)|..];
    }
  }

  /** trim2 leaves a contiguous piece `s[i..j]` of its input, everything cut
      on either side is a trim character, and the piece neither starts nor
      ends with one. */
  lemma TrimmedSlice(s: string, trim: string) returns (i: nat, j: nat)
    ensures i <= j <= |s| && Trimmed(s, trim) == s[i..j]
    ensures forall k :: 0 <= k < i ==> s[k] in trim
    ensures forall k :: j <= k < |s| ==> s[k] in trim
    ensures i < j ==> s[i] !in trim && s[j - 1] !in trim
  {
    var right := TrimRight(s, trim);
    TrimRightShape(s, trim);
    TrimLeftShape(right, trim);
    j := |right|;
    i := j - |Trimmed(s, trim)|;
    assert right[i..] == s[i..j];
    forall k | 0 <= k < i ensures s[k] in trim {
      assert s[k] == right[k];
    }
    if i < j {
      assert Trimmed(s, trim)[0] == s[i];
      assert right[j - 1] == s[j - 1];
    }
  }

  /** The result of trim2 neither starts nor ends with a trim character. */
  lemma TrimmedEdges(s: string, trim: string)
    ensures Trimmed(s, trim) != [] ==> Trimmed(s, trim)[0] !in trim
    ensures Trimmed(s, trim) != [] ==> Trimmed(s, trim)[|Trimmed(s, trim)| - 1] !in trim
  {
    var i, j := TrimmedSlice(s, trim);
  }

  /** trim2 empties a string exactly when it holds only trim characters (the
      empty string included). */
  lemma TrimmedEmptyIff(s: string, trim: string)
    ensures Trimmed(s, trim) == [] <==> forall k :: 0 <= k < |s| ==> s[k] in trim
  {
    var i, j := TrimmedSlice(s, trim);
    if Trimmed(s, trim) == [] {
      assert i == j;
    } else {
      assert s[i] !in trim;
    }
  }

  /** Calling trim2 a second time changes nothing. */
  lemma TrimmedIdempotent(s: string, trim: string)
    ensures Trimmed(Trimmed(s, trim), trim) == Trimmed(s, trim)
  {
    var t := Trimmed(s, trim);
    TrimmedEdges(s, trim);
    assert TrimRight(t, trim) == t;
    assert TrimLeft(t, trim) == t;
  }

  /** A character trim2 cannot remove stays in the string. */
  lemma TrimmedKeeps(s: string, trim: string, k: nat)
    requires k < |s| && s[k] !in trim
    ensures s[k] in Trimmed(s, trim)
  {
    var i, j := TrimmedSlice(s, trim);
    assert i <= k < j;
    assert s[i..j][k - i] == s[k];
  }

  // ---------------------------------------------------------------------
  // explode
  // ---------------------------------------------------------------------

  /** The token list contribution of one trimmed piece: dropped when empty. */
  function NonEmpty(t: string): (r: seq<string>)
  {
    if |t| > 0 then [t] else []
  }

  /** What `explode(str, separators)` returns: each piece up to the next
      separator, trimmed with the default trim set, kept when non-empty. */
  function Tokens(str: string, separators: string): seq<string>
    decreases |str|
  {
    match FirstIndexOf(str, separators)
    case None => NonEmpty(Trimmed(str, DefaultTrim))
    case Some(p) => NonEmpty(Trimmed(str[..p], DefaultTrim)) + Tokens(str[p + 1..], separators)
  }

  /** One pass of explode on a line whose first separator is at `p`. */
  lemma TokensStep(str: string, separators: string, p: nat)
    requires FirstIndexOf(str, separators) == Some(p)
    ensures Tokens(str, separators) ==
      NonEmpty(Trimmed(str[..p], DefaultTrim)) + Tokens(str[p + 1..], separators)
  {
  }

  /** The final pass of explode, on a line with no separator left. */
  lemma TokensLast(str: string, separators: string)
    requires FirstIndexOf(str, separators) == None
    ensures Tokens(str, separators) == NonEmpty(Trimmed(str, DefaultTrim))
  {
  }

  /** One non-final pass of explode keeps the tokens found so far followed
      by the tokens still to come equal to the tokens of the whole line. */
  lemma TokensPass(str0: string, separators: string, done: seq<string>, str: string, p: nat)
    requires done + Tokens(str, separators) == Tokens(str0, separators)
    requires FirstIndexOf(str, separators) == Some(p)
    ensures done + NonEmpty(Trimmed(str[..p], DefaultTrim)) + Tokens(str[p + 1..], separators)
         == Tokens(str0, separators)
  {
    TokensStep(str, separators, p);
  }

  /** `explode`: the `for(;;)` loop takes a piece off the front of `str` on
      each pass; a non-final pass replaces `str` by what follows the
      separator, which is strictly shorter, so the loop ends. */
  method Explode(str0: string, separators: string) returns (tokens: seq<string>)
    ensures tokens == Tokens(str0, separators)
  {
    var str := str0;
    tokens := [];
    while true
      invariant tokens + Tokens(str, separators) == Tokens(str0, separators)
      decreases |str|
    {
      var pos := FindFirstOf(str, separators);
      var token := if pos.Some? then str[..pos.value] else str;
      ghost var before, done := str, tokens;
      if pos.Some? {
        str := str[pos.value + 1..];
      }
      token := Trim2(token, DefaultTrim);
      if |token| > 0 {
        tokens := tokens + [token];
      }
      assert tokens == done + NonEmpty(token);
      if pos.None? {
        TokensLast(before, separators);
        assert Tokens(before, separators) == NonEmpty(token);
        assert tokens == Tokens(str0, separators);
        break;
      }
      TokensPass(str0, separators, done, before, pos.value);
    }
  }

  /** A token as explode produces it: non-empty, free of separators, and
      without a leading or trailing space, tab or newline. */
  ghost predicate WellFormedToken(t: string, separators: string)
  {
    && |t| > 0
    && (forall k :: 0 <= k < |t| ==> t[k] !in separators)
    && t[0] !in DefaultTrim
    && t[|t| - 1] !in DefaultTrim
  }

  /** One trimmed piece that holds no separator yields well-formed tokens. */
  lemma PieceWellFormed(piece: string, separators: string)
    requires forall k :: 0 <= k < |piece| ==> piece[k] !in separators
    ensures forall t :: t in NonEmpty(Trimmed(piece, DefaultTrim)) ==> WellFormedToken(t, separators)
  {
    var i, j := TrimmedSlice(piece, DefaultTrim);
    var t := Trimmed(piece, DefaultTrim);
    if |t| > 0 {
      assert forall k :: 0 <= k < |t| ==> t[k] == piece[i + k];
      assert t[0] == piece[i] && t[|t| - 1] == piece[j - 1];
    }
  }

  /** Every token explode returns is well formed. */
  lemma {:induction false} TokensWellFormed(str: string, separators: string)
    ensures forall t :: t in Tokens(str, separators) ==> WellFormedToken(t, separators)
    decreases |str|
  {
    match FirstIndexOf(str, separators)
    case None =>
      PieceWellFormed(str, separators);
    case Some(p) =>
      PieceWellFormed(str[..p], separators);
      TokensWellFormed(str[p + 1..], separators);
  }

  /** A line with no separator gives at most one token: the trimmed line. */
  lemma TokensNoSeparator(str: string, separators: string)
    requires forall k :: 0 <= k < |str| ==> str[k] !in separators
    ensures Tokens(str, separators) == NonEmpty(Trimmed(str, DefaultTrim))
  {
  }

  /** A separator after a line that holds none: the line's own token list,
      then that of what follows. */
  lemma TokensConcatFirst(x: string, c: char, y: string, separators: string)
    requires c in separators
    requires FirstIndexOf(x, separators).None?
    ensures Tokens(x + [c] + y, separators) == Tokens(x, separators) + Tokens(y, separators)
  {
    var s := x + [c] + y;
    assert forall k :: 0 <= k < |x| ==> s[k] == x[k];
    FirstIndexOfUnique(s, separators, |x|);
    TokensStep(s, separators, |x|);
    assert s[..|x|] == x;
    assert s[|x| + 1..] == y;
  }

  /** A separator after the first one of a line does not move that first
      token: the line `x + [c] + y` starts with the first piece of `x`. */
  lemma TokensAppendStep(x: string, c: char, y: string, separators: string, p: nat)
    requires FirstIndexOf(x, separators) == Some(p)
    ensures Tokens(x + [c] + y, separators) ==
      NonEmpty(Trimmed(x[..p], DefaultTrim)) + Tokens(x[p + 1..] + [c] + y, separators)
  {
    var s := x + [c] + y;
    assert forall k :: 0 <= k <= p ==> s[k] == x[k];
    FirstIndexOfUnique(s, separators, p);
    TokensStep(s, separators, p);
    SplitAfter(x, c, y, p);
  }

  /** The inductive step of TokensConcat: when the line's first separator is
      at `p`, splitting the rest of the line carries over to the whole. */
  lemma TokensConcatStep(x: string, c: char, y: string, separators: string, p: nat)
    requires FirstIndexOf(x, separators) == Some(p)
    requires Tokens(x[p + 1..] + [c] + y, separators) == Tokens(x[p + 1..], separators) + Tokens(y, separators)
    ensures Tokens(x + [c] + y, separators) == Tokens(x, separators) + Tokens(y, separators)
  {
    TokensAppendStep(x, c, y, separators, p);
    TokensStep(x, separators, p);
    Reassociate(NonEmpty(Trimmed(x[..p], DefaultTrim)), Tokens(x[p + 1..], separators), Tokens(y, separators));
  }

  /** Concatenation of token lists is associative. */
  lemma Reassociate(a: seq<string>, b: seq<string>, c: seq<string>)
    ensures a + (b + c) == (a + b) + c
  {
  }

  /** Cutting `x + [c] + y` around a position `p` of `x`. */
  lemma SplitAfter(x: string, c: char, y: string, p: nat)
    requires p < |x|
    ensures (x + [c] + y)[..p] == x[..p]
    ensures (x + [c] + y)[p + 1..] == x[p + 1..] + [c] + y
  {
    var a, b := x[..p + 1], x[p + 1..] + [c] + y;
    assert x == a + x[p + 1..];
    assert x + [c] + y == a + b;
  }

  /** Tokens come out in input order: a separator splits the token list of
      a line into the token list of what precedes it followed by that of what
      follows it. */
  lemma {:induction false} TokensConcat(x: string, c: char, y: string, separators: string)
    requires c in separators
    ensures Tokens(x + [c] + y, separators) == Tokens(x, separators) + Tokens(y, separators)
    decreases |x|
  {
    match FirstIndexOf(x, separators)
    case None =>
      TokensConcatFirst(x, c, y, separators);
    case Some(p) =>
      TokensConcat(x[p + 1..], c, y, separators);
      TokensConcatStep(x, c, y, separators, p);
  }

  /** explode returns no token exactly when the line holds nothing but
      separator and trim characters. */
  lemma {:induction false} TokensEmptyIff(str: string, separators: string)
    ensures Tokens(str, separators) == [] <==>
      forall k :: 0 <= k < |str| ==> str[k] in separators || str[k] in DefaultTrim
    decreases |str|
  {
    match FirstIndexOf(str, separators)
    case None =>
      TrimmedEmptyIff(str, DefaultTrim);
    case Some(p) =>
      var head, tail := str[..p], str[p + 1..];
      TrimmedEmptyIff(head, DefaultTrim);
      TokensEmptyIff(tail, separators);
      if forall k :: 0 <= k < |str| ==> str[k] in separators || str[k] in DefaultTrim {
        assert forall k :: 0 <= k < |head| ==> head[k] == str[k];
        assert forall k :: 0 <= k < |tail| ==> tail[k] == str[p + 1 + k];
      } else {
        var k :| 0 <= k < |str| && str[k] !in separators && str[k] !in DefaultTrim;
        if k < p {
          assert head[k] == str[k];
        } else {
          assert k != p;
          assert tail[k - p - 1] == str[k];
        }
      }
  }
}
