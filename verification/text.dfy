/** The string operations the screens use: splitting on a single space (with
the semantics of `String.prototype.split(' ')`), joining back, ASCII
upper-casing, taking a prefix, and the first letters of the words of a name.
 */
module Text {

  const Space: char := ' '

  /** Concatenation of `parts` with one space between neighbours; `Split`
      inverts it. */
  function Join(parts: seq<string>): string
    requires |parts| > 0
  {
    if |parts| == 1 then parts[0] else parts[0] + [Space] + Join(parts[1..])
  }

  /** `s.split(' ')`: the maximal space-free pieces of `s`, in order. Every
      space separates two pieces, so `n` spaces give `n + 1` pieces and
      neighbouring spaces give empty pieces; the empty string gives one empty
      piece. */
  function Split(s: string): (parts: seq<string>)
    ensures |parts| > 0
    ensures forall i :: 0 <= i < |parts| ==> Space !in parts[i]
    ensures Join(parts) == s
    decreases |s|
  {
    if |s| == 0 then [""]
    else
      var rest := Split(s[1..]);
      if s[0] == Space then
        assert ([""] + rest)[1..] == rest;
        [""] + rest
      else
        var head := [s[0]] + rest[0];
        assert s == [s[0]] + s[1..];
        assert ([head] + rest[1..])[1..] == rest[1..];
        [head] + rest[1..]
  }

  /** Splitting a string that starts with a space-free prefix `p` glues `p`
      onto the first piece and leaves the others alone. */
  lemma {:induction false} SplitSpaceFreePrefix(p: string, t: string)
    requires Space !in p
    ensures Split(p + t) == [p + Split(t)[0]] + Split(t)[1..]
    decreases |p|
  {
    if |p| == 0 {
      assert p + t == t;
      assert p + Split(t)[0] == Split(t)[0];
      assert Split(t) == [Split(t)[0]] + Split(t)[1..];
    } else {
      assert (p + t)[0] == p[0];
      assert (p + t)[1..] == p[1..] + t;
      SplitSpaceFreePrefix(p[1..], t);
      assert [p[0]] + (p[1..] + Split(t)[0]) == p + Split(t)[0];
    }
  }

  /** Split inverts Join: a non-empty list of space-free pieces is recovered
      from the string it joins to. */
  lemma {:induction false} SplitJoin(parts: seq<string>)
    requires |parts| > 0
    requires forall i :: 0 <= i < |parts| ==> Space !in parts[i]
    ensures Split(Join(parts)) == parts
    decreases |parts|
  {
    if |parts| == 1 {
      SplitSpaceFreePrefix(parts[0], "");
      assert parts[0] + "" == parts[0];
    } else {
      var rest := parts[1..];
      SplitJoin(rest);
      var t := [Space] + Join(rest);
      assert Join(parts) == parts[0] + t;
      SplitSpaceFreePrefix(parts[0], t);
      assert t[1..] == Join(rest);
      assert Split(t) == [""] + Split(Join(rest));
      assert parts[0] + "" == parts[0];
      assert parts == [parts[0]] + rest;
    }
  }

  /** The first piece of a split is the longest space-free prefix: it is a
      prefix, and it ends at the end of the string or just before a space. */
  lemma FirstPieceIsLongestSpaceFreePrefix(s: string)
    ensures Split(s)[0] <= s
    ensures |Split(s)[0]| == |s| || s[|Split(s)[0]|] == Space
  {
  }

  predicate IsLowerAscii(c: char) {
    'a' <= c <= 'z'
  }

  /** `toUpperCase` on one ASCII character; every other character is kept. */
  function UpperChar(c: char): (u: char)
    ensures !IsLowerAscii(u)
    ensures !IsLowerAscii(c) ==> u == c
    ensures IsLowerAscii(c) ==> 'A' <= u <= 'Z' && u as int + 32 == c as int
  {
    if IsLowerAscii(c) then (c as int - 32) as char else c
  }

  /** No character of `s` is a lower-case ASCII letter. */
  predicate IsUpperCased(s: string) {
    forall i :: 0 <= i < |s| ==> !IsLowerAscii(s[i])
  }

  /** `s.toUpperCase()` over ASCII: same length, each character upper-cased. */
  function Upper(s: string): (u: string)
    ensures |u| == |s|
    ensures forall i :: 0 <= i < |s| ==> u[i] == UpperChar(s[i])
    ensures IsUpperCased(u)
  {
    seq(|s|, i requires 0 <= i < |s| => UpperChar(s[i]))
  }

  /** `s.slice(0, n)`: the longest prefix of `s` that has at most `n`
      characters. */
  function Take(s: string, n: nat): (p: string)
    ensures p <= s
    ensures |p| == if |s| <= n then |s| else n
  {
    if |s| <= n then s else s[..n]
  }

  /** How many of `parts` are non-empty. */
  function NonEmptyCount(parts: seq<string>): (n: nat)
    ensures n <= |parts|
  {
    if |parts| == 0 then 0
    else (if |parts[0]| > 0 then 1 else 0) + NonEmptyCount(parts[1..])
  }

  /** `parts.map(p => p[0]).join('')`: the first character of every non-empty
      piece, in order. An empty piece maps to `undefined`, which `join` turns
      into nothing. */
  function FirstChars(parts: seq<string>): (firsts: string)
    ensures |firsts| == NonEmptyCount(parts)
    ensures forall c :: c in firsts <==> exists j :: 0 <= j < |parts| && |parts[j]| > 0 && parts[j][0] == c
    ensures (forall j :: 0 <= j < |parts| ==> |parts[j]| > 0) ==>
              |firsts| == |parts| && forall j :: 0 <= j < |parts| ==> firsts[j] == parts[j][0]
  {
    if |parts| == 0 then ""
    else
      assert parts == [parts[0]] + parts[1..];
      (if |parts[0]| > 0 then [parts[0][0]] else "") + FirstChars(parts[1..])
  }

  /** Mapping distributes over concatenation: the first characters of `a + b`
      are those of `a` followed by those of `b`, so the pieces' order is kept. */
  lemma {:induction false} FirstCharsAppend(a: seq<string>, b: seq<string>)
    ensures FirstChars(a + b) == FirstChars(a) + FirstChars(b)
    decreases |a|
  {
    if |a| == 0 {
      assert a + b == b;
    } else {
      assert (a + b)[0] == a[0];
      assert (a + b)[1..] == a[1..] + b;
      FirstCharsAppend(a[1..], b);
    }
  }

  /** Position `i` starts a word: it holds a non-space character and is the
      first position or follows a space. */
  predicate IsWordStart(s: string, i: nat)
    requires i < |s|
  {
    s[i] != Space && (i == 0 || s[i - 1] == Space)
  }

  /** The characters at the word starts of `s` from position `i` on. */
  function WordStartsFrom(s: string, i: nat): string
    requires i <= |s|
    decreases |s| - i
  {
    if i == |s| then ""
    else (if IsWordStart(s, i) then [s[i]] else "") + WordStartsFrom(s, i + 1)
  }

  /** The first letter of every space-separated word of `s`, in order: an
      index-based definition independent of `Split`. */
  function WordStarts(s: string): string {
    WordStartsFrom(s, 0)
  }

  /** A left-to-right scan that emits a non-space character when it follows a
      space or the start; it bridges `Split` and `WordStarts`. */
  function Scan(t: string, atStart: bool): string
    decreases |t|
  {
    if |t| == 0 then ""
    else if t[0] == Space then Scan(t[1..], true)
    else (if atStart then [t[0]] else "") + Scan(t[1..], false)
  }

  lemma {:induction false} FirstCharsOfSplitIsScan(t: string)
    ensures FirstChars(Split(t)) == Scan(t, true)
    ensures FirstChars(Split(t)[1..]) == Scan(t, false)
    decreases |t|
  {
    if |t| > 0 {
      FirstCharsOfSplitIsScan(t[1..]);
      var rest := Split(t[1..]);
      if t[0] == Space {
        assert Split(t) == [""] + rest;
        assert Split(t)[1..] == rest;
        assert FirstChars(Split(t)) == "" + FirstChars(rest);
      } else {
        var head := [t[0]] + rest[0];
        assert Split(t) == [head] + rest[1..];
        assert Split(t)[1..] == rest[1..];
        assert FirstChars(Split(t)) == [head[0]] + FirstChars(rest[1..]);
      }
    }
  }

  lemma {:induction false} WordStartsFromIsScan(s: string, i: nat)
    requires i <= |s|
    ensures WordStartsFrom(s, i) == Scan(s[i..], i == 0 || s[i - 1] == Space)
    decreases |s| - i
  {
    if i < |s| {
      WordStartsFromIsScan(s, i + 1);
      assert s[i..][0] == s[i];
      assert s[i..][1..] == s[i + 1..];
    }
  }

  /** The first characters of the pieces of `s.split(' ')` are exactly the
      first letters of the words of `s`: empty pieces contribute nothing. */
  lemma FirstCharsOfSplitAreWordStarts(s: string)
    ensures FirstChars(Split(s)) == WordStarts(s)
  {
    FirstCharsOfSplitIsScan(s);
    WordStartsFromIsScan(s, 0);
    assert s[0..] == s;
  }

  /** A string has no word start from `i` on exactly when it holds only
      spaces from `i` on. */
  lemma {:induction false} NoWordStartsFromIffBlank(s: string, i: nat)
    requires i <= |s|
    requires i == 0 || s[i - 1] == Space
    ensures WordStartsFrom(s, i) == "" <==> forall j :: i <= j < |s| ==> s[j] == Space
    decreases |s| - i
  {
    if i < |s| {
      if s[i] == Space {
        NoWordStartsFromIffBlank(s, i + 1);
      }
    }
  }
}
