/** Python string operations used throughout the assistant, written over
    `seq<char>`: membership (`in`), `find`, `split(sep)`, `sep.join`,
    `replace`, `strip`, whitespace `split()`, `lower()`, `[:n]` and the
    decimal rendering of integers used in f-strings. */
module Text {

  datatype Option<T> = None | Some(value: T)

  /** Python's `s[:n]`. */
  function Take<T>(s: seq<T>, n: nat): (r: seq<T>)
    ensures |r| == if |s| <= n then |s| else n
    ensures r <= s
  {
    if |s| <= n then s else s[..n]
  }

  /** Python's `s[-n:]` for `n > 0`. */
  function Last<T>(s: seq<T>, n: nat): (r: seq<T>)
    ensures |r| == if |s| <= n then |s| else n
    ensures forall i :: 0 <= i < |r| ==> r[i] == s[|s| - |r| + i]
  {
    if |s| <= n then s else s[|s| - n..]
  }

  /** No element occurs twice, as in the key list of a dictionary. */
  predicate Distinct<T(==)>(s: seq<T>) {
    forall i, j :: 0 <= i < j < |s| ==> s[i] != s[j]
  }

  /** Extending a slice by one element, behind a fixed prefix. */
  lemma AppendSliceStep<T>(a: seq<T>, xs: seq<T>, j: nat)
    requires j < |xs|
    ensures a + xs[..j + 1] == (a + xs[..j]) + [xs[j]]
  {
    assert xs[..j + 1] == xs[..j] + [xs[j]];
  }

  /** A non-empty sequence is its front and its last element. */
  lemma SplitLast<T>(s: seq<T>)
    requires |s| > 0
    ensures s == s[..|s| - 1] + [s[|s| - 1]]
    ensures multiset(s) == multiset(s[..|s| - 1]) + multiset{s[|s| - 1]}
  {
    assert s == s[..|s| - 1] + [s[|s| - 1]];
  }

  /** Appending past the first `n` elements leaves the prefix unchanged. */
  lemma TakeSnoc<T>(s: seq<T>, x: T, n: nat)
    ensures Take(s + [x], n) == if |s| < n then s + [x] else Take(s, n)
  {
    if |s| >= n {
      assert (s + [x])[..n] == s[..n];
    }
  }

  /** A non-empty sequence is its first element and the rest. */
  lemma SplitFirst<T>(s: seq<T>)
    requires |s| > 0
    ensures s == [s[0]] + s[1..]
  {
  }

  lemma LastAppendTwo<T>(s: seq<T>, x: T, y: T, n: nat)
    requires n >= 2
    ensures Last(s + [x, y], n) == Last(s, n - 2) + [x, y]
  {
    if |s| + 2 > n {
      var k := |s| - (n - 2);
      assert (s + [x, y])[k..] == s[k..] + [x, y];
    }
  }

  // ---------------------------------------------------------------------
  // Characters

  /** The whitespace characters Python's `str.split()`/`str.strip()` remove
      (the Unicode-only spaces are not modelled). */
  const Whitespace: set<char> := {' ', '\t', '\n', '\r', '\U{0B}', '\U{0C}'}

  predicate IsSpace(c: char) { c in Whitespace }

  predicate IsAsciiDigit(c: char) { '0' <= c <= '9' }

  predicate IsAsciiLetter(c: char) { 'a' <= c <= 'z' || 'A' <= c <= 'Z' }

  /** Upper-case Cyrillic letters as the class `[А-ЯЁ]` spells them. */
  predicate IsUpperCyrillic(c: char) { 'А' <= c <= 'Я' || c == 'Ё' }

  /** Lower-case Cyrillic letters as the class `[а-яё]` spells them. */
  predicate IsLowerCyrillic(c: char) { 'а' <= c <= 'я' || c == 'ё' }

  /** `str.lower()` on one character, for the Latin and Russian alphabets. */
  function LowerChar(c: char): (r: char)
    ensures !('A' <= r <= 'Z') && !IsUpperCyrillic(r)
    ensures IsAsciiDigit(c) ==> r == c
    ensures IsSpace(r) <==> IsSpace(c)
  {
    if 'A' <= c <= 'Z' then (c as int + 32) as char
    else if 'А' <= c <= 'Я' then (c as int + 32) as char
    else if c == 'Ё' then 'ё'
    else c
  }

  function Lower(s: string): (r: string)
    ensures |r| == |s|
    ensures forall i :: 0 <= i < |s| ==> r[i] == LowerChar(s[i])
  {
    seq(|s|, i requires 0 <= i < |s| => LowerChar(s[i]))
  }

  lemma LowerCharIdempotent(c: char)
    ensures LowerChar(LowerChar(c)) == LowerChar(c)
  {
  }

  lemma LowerIdempotent(s: string)
    ensures Lower(Lower(s)) == Lower(s)
  {
    forall i | 0 <= i < |s| ensures Lower(Lower(s))[i] == Lower(s)[i] {
      LowerCharIdempotent(s[i]);
    }
  }

  lemma LowerConcat(a: string, b: string)
    ensures Lower(a + b) == Lower(a) + Lower(b)
  {
  }

  // ---------------------------------------------------------------------
  // Searching

  /** Python's `p in s`. */
  predicate Contains(s: string, p: string)
    decreases |s|
  {
    p <= s || (|s| > 0 && Contains(s[1..], p))
  }

  /** The occurrences of `p` in `s`, as `Contains` speaks of them. */
  predicate OccursAt(s: string, p: string, i: int)
  {
    0 <= i <= |s| && p <= s[i..]
  }

  lemma {:induction false} ContainsIffOccurs(s: string, p: string)
    ensures Contains(s, p) <==> exists i :: OccursAt(s, p, i)
    decreases |s|
  {
    if p <= s {
      assert OccursAt(s, p, 0);
    } else if |s| == 0 {
      assert !exists i :: OccursAt(s, p, i);
    } else {
      ContainsIffOccurs(s[1..], p);
      if Contains(s[1..], p) {
        var i :| OccursAt(s[1..], p, i);
        assert s[1..][i..] == s[i + 1..];
        assert OccursAt(s, p, i + 1);
      } else {
        forall i | OccursAt(s, p, i) ensures false {
          assert i != 0;
          assert s[1..][i - 1..] == s[i..];
          assert OccursAt(s[1..], p, i - 1);
        }
      }
    }
  }

  /** An occurrence of `p` in a part of `s` is an occurrence in `s`. */
  lemma ContainsInfix(s: string, i: nat, j: nat, p: string)
    requires i <= j <= |s|
    requires Contains(s[i..j], p)
    ensures Contains(s, p)
  {
    ContainsIffOccurs(s[i..j], p);
    var k :| OccursAt(s[i..j], p, k);
    assert s[i..j][k..] <= s[i + k..];
    assert OccursAt(s, p, i + k);
    ContainsIffOccurs(s, p);
  }

  /** `any(p in s for p in ps)`. */
  predicate ContainsAny(s: string, ps: seq<string>)
  {
    exists i :: 0 <= i < |ps| && Contains(s, ps[i])
  }

  /**
   * The first group of a keyword table with a keyword in `s`: the loop
   * `for label, keywords in table: if any(k in s for k in keywords): return label`.
   */
  function FirstHit(s: string, table: seq<seq<string>>): (r: Option<nat>)
    ensures r.Some? ==> (r.value < |table| && ContainsAny(s, table[r.value])
                         && forall j :: 0 <= j < r.value ==> !ContainsAny(s, table[j]))
    ensures r.None? ==> forall j :: 0 <= j < |table| ==> !ContainsAny(s, table[j])
  {
    if table == [] then None
    else if ContainsAny(s, table[0]) then Some(0)
    else
      match FirstHit(s, table[1..])
      case None => None
      case Some(k) => Some(k + 1)
  }

  /** Index of the first element that fails `p`: a loop that stops at the first bad element. */
  function FirstFailing<T>(xs: seq<T>, p: T -> bool): (r: Option<nat>)
    ensures r.None? <==> forall i :: 0 <= i < |xs| ==> p(xs[i])
    ensures r.Some? ==> (r.value < |xs| && !p(xs[r.value])
                         && forall j :: 0 <= j < r.value ==> p(xs[j]))
  {
    if xs == [] then None
    else if !p(xs[0]) then Some(0)
    else
      var rest := xs[1..];
      assert forall i :: 0 <= i < |rest| ==> rest[i] == xs[i + 1];
      match FirstFailing(rest, p)
      case None => None
      case Some(k) => Some(k + 1)
  }

  /** Index of the first key of `keys` contained in `s`. */
  function FirstKey(s: string, keys: seq<string>): (r: Option<nat>)
    ensures r.Some? ==> r.value < |keys| && Contains(s, keys[r.value])
                        && forall j :: 0 <= j < r.value ==> !Contains(s, keys[j])
    ensures r.None? ==> forall j :: 0 <= j < |keys| ==> !Contains(s, keys[j])
  {
    if keys == [] then None
    else if Contains(s, keys[0]) then Some(0)
    else match FirstKey(s, keys[1..])
      case None => None
      case Some(k) => Some(k + 1)
  }

  /** The first key of the table that `s` contains is the one `FirstKey` finds. */
  lemma FirstKeyIsFirst(s: string, keys: seq<string>, i: nat)
    requires i < |keys| && Contains(s, keys[i])
    requires forall j :: 0 <= j < i ==> !Contains(s, keys[j])
    ensures FirstKey(s, keys) == Some(i)
  {
  }

  /** Python's `s.find(p)`, with `None` for -1: the first occurrence. */
  function IndexOf(s: string, p: string): (r: Option<nat>)
    ensures r.Some? ==> OccursAt(s, p, r.value)
    decreases |s|
  {
    if p <= s then Some(0)
    else if |s| == 0 then None
    else
      var rest := IndexOf(s[1..], p);
      OccursShift(s, p);
      match rest
      case None => None
      case Some(i) => Some(i + 1)
  }

  lemma OccursShift(s: string, p: string)
    requires |s| > 0
    ensures forall j :: 1 <= j <= |s| ==> (OccursAt(s, p, j) <==> OccursAt(s[1..], p, j - 1))
  {
    forall j | 1 <= j <= |s| ensures OccursAt(s, p, j) <==> OccursAt(s[1..], p, j - 1) {
      assert s[1..][j - 1..] == s[j..];
    }
  }

  /** `IndexOf` finds the first occurrence, and finds nothing only when there is none. */
  lemma {:induction false} IndexOfFirst(s: string, p: string)
    ensures IndexOf(s, p).Some? ==> forall j :: 0 <= j < IndexOf(s, p).value ==> !OccursAt(s, p, j)
    ensures IndexOf(s, p).None? ==> forall j :: 0 <= j <= |s| ==> !OccursAt(s, p, j)
    decreases |s|
  {
    if !(p <= s) && |s| > 0 {
      IndexOfFirst(s[1..], p);
      OccursShift(s, p);
    }
  }

  lemma IndexOfContains(s: string, p: string)
    ensures IndexOf(s, p).Some? <==> Contains(s, p)
  {
    IndexOfFirst(s, p);
    ContainsIffOccurs(s, p);
  }

  /** Python's `s.startswith(p)`. */
  predicate StartsWith(s: string, p: string) { p <= s }

  /** Python's `s.endswith(p)`. */
  predicate EndsWith(s: string, p: string) { |p| <= |s| && s[|s| - |p|..] == p }

  // ---------------------------------------------------------------------
  // split / join / replace

  /** Python's `s.split(sep)` for a non-empty separator. */
  function Split(s: string, sep: string): (r: seq<string>)
    requires |sep| > 0
    ensures |r| >= 1
    decreases |s|
  {
    match IndexOf(s, sep)
    case None => [s]
    case Some(i) => [s[..i]] + Split(s[i + |sep|..], sep)
  }

  /** Python's `sep.join(xs)`. */
  function Join(xs: seq<string>, sep: string): string
  {
    if |xs| == 0 then ""
    else if |xs| == 1 then xs[0]
    else xs[0] + sep + Join(xs[1..], sep)
  }

  lemma JoinAppend(xs: seq<string>, x: string, sep: string)
    ensures Join(xs + [x], sep) == if |xs| == 0 then x else Join(xs, sep) + sep + x
  {
    if |xs| > 1 {
      assert (xs + [x])[1..] == xs[1..] + [x];
      JoinAppend(xs[1..], x, sep);
    } else if |xs| == 1 {
      assert (xs + [x])[1..] == [x];
    }
  }

  /** Gluing `x` to the last piece joins like appending `x` as a piece. */
  lemma JoinGlued(xs: seq<string>, last: string, x: string, sep: string)
    ensures Join(xs + [last + sep + x], sep) == Join(xs + [last], sep) + sep + x
  {
    JoinAppend(xs, last, sep);
    JoinAppend(xs, last + sep + x, sep);
    if xs != [] {
      var j := Join(xs, sep);
      assert j + sep + (last + sep + x) == (j + sep + last) + sep + x;
    }
  }

  lemma {:induction false} JoinConcat(xs: seq<string>, ys: seq<string>, sep: string)
    requires |xs| > 0 && |ys| > 0
    ensures Join(xs + ys, sep) == Join(xs, sep) + sep + Join(ys, sep)
  {
    if |xs| == 1 {
      assert (xs + ys)[1..] == ys;
    } else {
      assert (xs + ys)[1..] == xs[1..] + ys;
      JoinConcat(xs[1..], ys, sep);
    }
  }

  lemma JoinLength(xs: seq<string>, sep: string)
    requires |xs| > 0
    ensures |Join(xs, sep)| == SumLengths(xs) + (|xs| - 1) * |sep|
  {
    if |xs| > 1 {
      JoinLength(xs[1..], sep);
    }
  }

  function SumLengths(xs: seq<string>): nat
  {
    if |xs| == 0 then 0 else |xs[0]| + SumLengths(xs[1..])
  }

  lemma SumLengthsAppend(xs: seq<string>, x: string)
    ensures SumLengths(xs + [x]) == SumLengths(xs) + |x|
  {
    if |xs| > 0 {
      assert (xs + [x])[1..] == xs[1..] + [x];
      SumLengthsAppend(xs[1..], x);
    }
  }

  lemma ContainsLeft(a: string, b: string)
    ensures Contains(a + b, a)
  {
    ContainsIffOccurs(a + b, a);
    assert OccursAt(a + b, a, 0);
  }

  lemma ContainsRight(a: string, b: string)
    ensures Contains(a + b, b)
  {
    ContainsIffOccurs(a + b, b);
    assert (a + b)[|a|..] == b;
    assert OccursAt(a + b, b, |a|);
  }

  /** Every piece of `sep.join(xs)` occurs in the joined string. */
  lemma {:induction false} JoinContainsPieces(xs: seq<string>, sep: string)
    ensures forall i :: 0 <= i < |xs| ==> Contains(Join(xs, sep), xs[i])
  {
    if |xs| == 1 {
      ContainsLeft(xs[0], "");
      assert xs[0] + "" == xs[0];
    } else if |xs| > 1 {
      var rest := Join(xs[1..], sep);
      JoinContainsPieces(xs[1..], sep);
      assert Join(xs, sep) == xs[0] + (sep + rest);
      ContainsLeft(xs[0], sep + rest);
      forall i | 1 <= i < |xs| ensures Contains(Join(xs, sep), xs[i]) {
        assert xs[i] == xs[1..][i - 1];
        ContainsIffOccurs(rest, xs[i]);
        var k :| OccursAt(rest, xs[i], k);
        var whole := xs[0] + sep + rest;
        assert whole[|xs[0] + sep| + k..] == rest[k..];
        assert OccursAt(whole, xs[i], |xs[0] + sep| + k);
        ContainsIffOccurs(whole, xs[i]);
      }
    }
  }

  /** Splitting on `sep` and joining with `sep` gives back the string. */
  lemma {:induction false} JoinSplit(s: string, sep: string)
    requires |sep| > 0
    ensures Join(Split(s, sep), sep) == s
    decreases |s|
  {
    match IndexOf(s, sep)
    case None =>
    case Some(i) =>
      var rest := s[i + |sep|..];
      JoinSplit(rest, sep);
      JoinCons(s[..i], Split(rest, sep), sep);
      SplitAround(s, i, sep);
  }

  lemma JoinCons(x: string, xs: seq<string>, sep: string)
    requires |xs| > 0
    ensures Join([x] + xs, sep) == x + sep + Join(xs, sep)
  {
    assert ([x] + xs)[1..] == xs;
  }

  lemma {:induction false} SplitAround(s: string, i: nat, sep: string)
    requires OccursAt(s, sep, i)
    ensures i + |sep| <= |s| && s == s[..i] + sep + s[i + |sep|..]
  {
    assert s[i..][..|sep|] == sep;
    assert s == s[..i] + s[i..][..|sep|] + s[i + |sep|..];
  }

  /** The text before the first occurrence does not contain the separator. */
  lemma {:induction false} FirstPieceFree(s: string, sep: string, i: nat)
    requires |sep| > 0 && IndexOf(s, sep) == Some(i)
    ensures !Contains(s[..i], sep)
  {
    IndexOfFirst(s, sep);
    var piece := s[..i];
    if Contains(piece, sep) {
      ContainsIffOccurs(piece, sep);
      var j :| OccursAt(piece, sep, j);
      assert j < i;
      assert piece[j..] <= s[j..];
      assert OccursAt(s, sep, j);
    }
  }

  /** No piece of `s.split(sep)` contains the separator. */
  lemma {:induction false} SplitPiecesFree(s: string, sep: string)
    requires |sep| > 0
    ensures forall k :: 0 <= k < |Split(s, sep)| ==> !Contains(Split(s, sep)[k], sep)
    decreases |s|
  {
    match IndexOf(s, sep)
    case None =>
      IndexOfContains(s, sep);
    case Some(i) =>
      var rest := s[i + |sep|..];
      SplitPiecesFree(rest, sep);
      FirstPieceFree(s, sep, i);
      var xs := Split(s, sep);
      var ys := Split(rest, sep);
      assert xs == [s[..i]] + ys;
      forall k | 0 <= k < |xs| ensures !Contains(xs[k], sep) {
        if k > 0 { assert xs[k] == ys[k - 1]; }
      }
  }

  /**
   * Python's `s.replace(old, new)` for a non-empty `old`: the scan goes from
   * the left, a leading `old` becomes `new`, anything else is kept.
   */
  function ReplaceAll(s: string, old_: string, new_: string): string
    requires |old_| > 0
    decreases |s|
  {
    if |s| == 0 then ""
    else if old_ <= s then new_ + ReplaceAll(s[|old_|..], old_, new_)
    else [s[0]] + ReplaceAll(s[1..], old_, new_)
  }

  lemma {:induction false} ReplaceAbsent(s: string, old_: string, new_: string)
    requires |old_| > 0 && !Contains(s, old_)
    ensures ReplaceAll(s, old_, new_) == s
    decreases |s|
  {
    if |s| > 0 {
      ReplaceAbsent(s[1..], old_, new_);
      assert [s[0]] + s[1..] == s;
    }
  }

  // ---------------------------------------------------------------------
  // strip / whitespace split

  function TrimLeft(s: string, cs: set<char>): (r: string)
    ensures |r| <= |s| && r == s[|s| - |r|..]
    ensures |r| > 0 ==> r[0] !in cs
    ensures forall i :: 0 <= i < |s| - |r| ==> s[i] in cs
    decreases |s|
  {
    if |s| > 0 && s[0] in cs then TrimLeft(s[1..], cs) else s
  }

  function TrimRight(s: string, cs: set<char>): (r: string)
    ensures |r| <= |s| && r == s[..|r|]
    ensures |r| > 0 ==> r[|r| - 1] !in cs
    ensures forall i :: |r| <= i < |s| ==> s[i] in cs
    decreases |s|
  {
    if |s| > 0 && s[|s| - 1] in cs then TrimRight(s[..|s| - 1], cs) else s
  }

  /** Python's `s.strip(chars)`. */
  function StripChars(s: string, cs: set<char>): (r: string)
    ensures |r| <= |s|
    ensures |r| > 0 ==> r[0] !in cs && r[|r| - 1] !in cs
  {
    TrimRight(TrimLeft(s, cs), cs)
  }

  /** Python's `s.strip()`. */
  function Strip(s: string): string
  {
    StripChars(s, Whitespace)
  }

  /** Length of the leading run of non-whitespace characters. */
  function WordLength(s: string): (n: nat)
    ensures n <= |s|
    ensures forall i :: 0 <= i < n ==> !IsSpace(s[i])
    ensures n < |s| ==> IsSpace(s[n])
    ensures |s| > 0 && !IsSpace(s[0]) ==> n > 0
    decreases |s|
  {
    if |s| == 0 || IsSpace(s[0]) then 0 else 1 + WordLength(s[1..])
  }

  /** Python's `s.split()` with no separator: the maximal runs of
      non-whitespace characters. */
  function Words(s: string): (ws: seq<string>)
    ensures forall w :: w in ws ==> IsWord(w)
    decreases |s|
  {
    var t := TrimLeft(s, Whitespace);
    if |t| == 0 then []
    else
      var n := WordLength(t);
      var w := t[..n];
      assert IsWord(w);
      [w] + Words(t[n..])
  }

  /** One unfolding of `Words` on a text that has a first word. */
  lemma {:induction false} WordsStep(s: string)
    requires |TrimLeft(s, Whitespace)| > 0
    ensures var t := TrimLeft(s, Whitespace);
      Words(s) == [t[..WordLength(t)]] + Words(t[WordLength(t)..])
  {
  }

  /** A non-empty string without whitespace. */
  predicate IsWord(w: string)
  {
    |w| > 0 && forall i :: 0 <= i < |w| ==> !IsSpace(w[i])
  }

  lemma {:induction false} WordLengthOfWord(w: string, rest: string)
    requires IsWord(w) && (rest == [] || IsSpace(rest[0]))
    ensures WordLength(w + rest) == |w|
    decreases |w|
  {
    if |w| > 1 {
      assert (w + rest)[1..] == w[1..] + rest;
      WordLengthOfWord(w[1..], rest);
    } else {
      assert (w + rest)[1..] == rest;
    }
  }

  lemma {:induction false} WordsCons(w: string, tail: string)
    requires IsWord(w) && (tail == [] || IsSpace(tail[0]))
    ensures Words(w + tail) == [w] + Words(tail)
  {
    var s := w + tail;
    assert TrimLeft(s, Whitespace) == s;
    WordLengthOfWord(w, tail);
    assert s[..|w|] == w;
    assert s[|w|..] == tail;
    if tail != [] {
      assert TrimLeft(tail, Whitespace) == TrimLeft(tail[1..], Whitespace);
    }
  }

  lemma {:induction false} WordsSpace(rest: string)
    ensures Words(" " + rest) == Words(rest)
  {
    assert (" " + rest)[1..] == rest;
    assert TrimLeft(" " + rest, Whitespace) == TrimLeft(rest, Whitespace);
  }

  lemma {:induction false} WordsSingle(w: string)
    requires IsWord(w)
    ensures Words(w) == [w]
  {
    WordsCons(w, "");
    assert w + "" == w;
    assert Words("") == [];
  }

  lemma {:induction false} WordsAfterWord(w: string, rest: string)
    requires IsWord(w)
    ensures Words(w + (" " + rest)) == [w] + Words(rest)
  {
    WordsCons(w, " " + rest);
    WordsSpace(rest);
  }

  lemma {:induction false} JoinHead(ws: seq<string>, sep: string)
    requires |ws| > 1
    ensures Join(ws, sep) == ws[0] + (sep + Join(ws[1..], sep))
  {
  }

  lemma {:induction false} WordsJoinStep(ws: seq<string>)
    requires |ws| > 1 && IsWord(ws[0]) && Words(Join(ws[1..], " ")) == ws[1..]
    ensures Words(Join(ws, " ")) == ws
  {
    var rest := Join(ws[1..], " ");
    JoinHead(ws, " ");
    WordsAfterWord(ws[0], rest);
    SplitFirst(ws);
  }

  /** Splitting words joined by single spaces gives the words back. */
  lemma {:induction false} WordsJoin(ws: seq<string>)
    requires forall i :: 0 <= i < |ws| ==> IsWord(ws[i])
    ensures Words(Join(ws, " ")) == ws
  {
    if |ws| == 1 {
      WordsSingle(ws[0]);
    } else if |ws| > 1 {
      assert forall i :: 0 <= i < |ws| - 1 ==> ws[1..][i] == ws[i + 1];
      WordsJoin(ws[1..]);
      WordsJoinStep(ws);
    }
  }

  /** Replacing an occurring string puts the replacement into the result. */
  lemma {:induction false} ReplaceAllContainsNew(s: string, old_: string, new_: string)
    requires |old_| > 0 && Contains(s, old_)
    ensures Contains(ReplaceAll(s, old_, new_), new_)
    decreases |s|
  {
    var r := ReplaceAll(s, old_, new_);
    if old_ <= s {
      assert new_ <= r;
    } else {
      var rest := ReplaceAll(s[1..], old_, new_);
      ReplaceAllContainsNew(s[1..], old_, new_);
      assert r[1..] == rest;
    }
  }

  lemma {:induction false} TrimLeftKeeps(s: string, p: string, i: int)
    requires OccursAt(s, p, i) && |p| > 0 && !IsSpace(p[0])
    ensures |s| - |TrimLeft(s, Whitespace)| <= i
    ensures OccursAt(TrimLeft(s, Whitespace), p, i - (|s| - |TrimLeft(s, Whitespace)|))
  {
    var t := TrimLeft(s, Whitespace);
    var d := |s| - |t|;
    assert s[i] == p[0];
    assert t[i - d..] == s[i..];
  }

  lemma {:induction false} TrimRightKeeps(t: string, p: string, j: int)
    requires OccursAt(t, p, j) && |p| > 0 && !IsSpace(p[|p| - 1])
    ensures OccursAt(TrimRight(t, Whitespace), p, j)
  {
    var r := TrimRight(t, Whitespace);
    assert t[j..][..|p|] == p;
    assert t[j + |p| - 1] == p[|p| - 1];
    assert |r| >= j + |p|;
    assert r[j..][..|p|] == t[j..][..|p|];
  }

  /** Stripping whitespace keeps every contained string that neither starts nor ends with whitespace. */
  lemma StripKeepsInner(s: string, p: string)
    requires Contains(s, p) && |p| > 0 && !IsSpace(p[0]) && !IsSpace(p[|p| - 1])
    ensures Contains(Strip(s), p)
  {
    ContainsIffOccurs(s, p);
    var i :| OccursAt(s, p, i);
    var t := TrimLeft(s, Whitespace);
    TrimLeftKeeps(s, p, i);
    TrimRightKeeps(t, p, i - (|s| - |t|));
    ContainsIffOccurs(TrimRight(t, Whitespace), p);
    assert Strip(s) == TrimRight(t, Whitespace);
  }

  lemma ContainsTransitive(s: string, t: string, p: string)
    requires Contains(s, t) && Contains(t, p)
    ensures Contains(s, p)
  {
    ContainsIffOccurs(s, t);
    var i :| OccursAt(s, t, i);
    assert s[i..i + |t|] == t;
    ContainsInfix(s, i, i + |t|, p);
  }

  lemma ContainsMiddle(a: string, b: string, c: string)
    ensures Contains(a + b + c, b)
  {
    var s := a + b + c;
    assert s[|a|..|a| + |b|] == b;
    assert Contains(b, b);
    ContainsInfix(s, |a|, |a| + |b|, b);
  }

  /**
   * Replacing an occurring string and stripping the result keeps every
   * part of the replacement that neither starts nor ends with whitespace.
   */
  lemma ReplaceStripKeeps(s: string, old_: string, new_: string, p: string)
    requires |old_| > 0 && Contains(s, old_) && Contains(new_, p)
    requires |p| > 0 && !IsSpace(p[0]) && !IsSpace(p[|p| - 1])
    ensures Contains(Strip(ReplaceAll(s, old_, new_)), p)
  {
    ReplaceAllContainsNew(s, old_, new_);
    ContainsTransitive(ReplaceAll(s, old_, new_), new_, p);
    StripKeepsInner(ReplaceAll(s, old_, new_), p);
  }

  /** When `t` occurs in `s`, whatever occurs in `Lower(t)` occurs in `Lower(s)`. */
  lemma ContainsLowerPiece(s: string, t: string, p: string)
    requires Contains(s, t) && Contains(Lower(t), p)
    ensures Contains(Lower(s), p)
  {
    ContainsIffOccurs(s, t);
    var i :| OccursAt(s, t, i);
    var j := i + |t|;
    assert Lower(s)[i..j] == Lower(t) by {
      forall k | 0 <= k < |t| ensures Lower(s)[i..j][k] == Lower(t)[k] {
        assert s[i..][k] == t[k];
      }
    }
    ContainsInfix(Lower(s), i, j, p);
  }

  // ---------------------------------------------------------------------
  // Conversation history lines

  /** The tag that starts every user line of a stored conversation. */
  const UserPrefix: string := "Пользователь:"

  function UserLines(history: seq<string>): (r: seq<string>)
    ensures |r| <= |history|
    ensures forall i :: 0 <= i < |r| ==> StartsWith(r[i], UserPrefix) && r[i] in history
  {
    if history == [] then []
    else
      var init := UserLines(history[..|history| - 1]);
      var m := history[|history| - 1];
      if StartsWith(m, UserPrefix) then init + [m] else init
  }

  // ---------------------------------------------------------------------
  // Patterns of literal pieces joined by `.*`

  /**
   * `ps` matches at the start of `t` after a gap without a newline: the
   * regex `.*p0.*p1...`, anchored, `.` not matching a newline.
   */
  predicate Anchored(t: string, ps: seq<string>)
    decreases |t| + |ps|
  {
    if ps == [] then true
    else (ps[0] <= t && Anchored(t[|ps[0]|..], ps[1..]))
         || (|t| > 0 && t[0] != '\n' && Anchored(t[1..], ps))
  }

  /** `re.search("p0.*p1.*...", s)` is not `None`. */
  predicate PiecesMatch(s: string, ps: seq<string>)
    decreases |s|
  {
    if ps == [] then true
    else (ps[0] <= s && Anchored(s[|ps[0]|..], ps[1..])) || (|s| > 0 && PiecesMatch(s[1..], ps))
  }

  /** An alternation `(a|b|...)` of such patterns matches when one alternative does. */
  predicate AnyPiecesMatch(s: string, alternatives: seq<seq<string>>) {
    exists i :: 0 <= i < |alternatives| && PiecesMatch(s, alternatives[i])
  }

  /** A one-piece pattern is plain substring search. */
  lemma {:induction false} SinglePieceMatch(s: string, p: string)
    ensures PiecesMatch(s, [p]) <==> Contains(s, p)
    decreases |s|
  {
    assert [p][1..] == [];
    if |s| > 0 { SinglePieceMatch(s[1..], p); }
  }

  /** Every piece of a matching pattern occurs in the text. */
  lemma {:induction false} AnchoredPiecesOccur(t: string, ps: seq<string>)
    requires Anchored(t, ps)
    ensures forall k :: 0 <= k < |ps| ==> Contains(t, ps[k])
    decreases |t| + |ps|
  {
    if ps != [] {
      if ps[0] <= t && Anchored(t[|ps[0]|..], ps[1..]) {
        AnchoredPiecesOccur(t[|ps[0]|..], ps[1..]);
        forall k | 0 <= k < |ps| ensures Contains(t, ps[k]) {
          if k == 0 {
            assert t[..|ps[0]|] == ps[0];
            assert Contains(ps[0], ps[0]);
            ContainsInfix(t, 0, |ps[0]|, ps[0]);
          } else {
            assert ps[k] == ps[1..][k - 1];
            assert t[|ps[0]|..][0..] == t[|ps[0]|..|t|];
            ContainsInfix(t, |ps[0]|, |t|, ps[k]);
          }
        }
      } else {
        AnchoredPiecesOccur(t[1..], ps);
        forall k | 0 <= k < |ps| ensures Contains(t, ps[k]) {
          assert t[1..|t|] == t[1..];
          ContainsInfix(t, 1, |t|, ps[k]);
        }
      }
    }
  }

  /** Every piece of a matching pattern occurs in the text. */
  lemma {:induction false} PiecesOccur(s: string, ps: seq<string>)
    requires PiecesMatch(s, ps)
    ensures forall k :: 0 <= k < |ps| ==> Contains(s, ps[k])
    decreases |s|
  {
    if ps != [] {
      if ps[0] <= s && Anchored(s[|ps[0]|..], ps[1..]) {
        AnchoredPiecesOccur(s, ps);
      } else {
        PiecesOccur(s[1..], ps);
        forall k | 0 <= k < |ps| ensures Contains(s, ps[k]) {
          assert s[1..|s|] == s[1..];
          ContainsInfix(s, 1, |s|, ps[k]);
        }
      }
    }
  }

  // ---------------------------------------------------------------------
  // Runs

  /** Length of the longest suffix of `xs` whose elements all satisfy `p`. */
  function TrailingRun<T>(xs: seq<T>, p: T -> bool): (n: nat)
    ensures n <= |xs|
  {
    if xs != [] && p(xs[|xs| - 1]) then 1 + TrailingRun(xs[..|xs| - 1], p) else 0
  }

  /** The run is a suffix that satisfies `p` and cannot be extended by one more element. */
  lemma {:induction false} TrailingRunIsMaximal<T>(xs: seq<T>, p: T -> bool)
    ensures var n := TrailingRun(xs, p);
      && (forall i :: |xs| - n <= i < |xs| ==> p(xs[i]))
      && (n < |xs| ==> !p(xs[|xs| - n - 1]))
  {
    if xs != [] && p(xs[|xs| - 1]) {
      var init := xs[..|xs| - 1];
      TrailingRunIsMaximal(init, p);
      var n := TrailingRun(xs, p);
      forall i | |xs| - n <= i < |xs| ensures p(xs[i]) {
        if i < |xs| - 1 { assert xs[i] == init[i]; }
      }
      if n < |xs| {
        assert xs[|xs| - n - 1] == init[|init| - (n - 1) - 1];
      }
    }
  }

  // ---------------------------------------------------------------------
  // Replacement one step at a time, and runs of one character

  lemma ReplaceAllEmpty(old_: string, new_: string)
    requires |old_| > 0
    ensures ReplaceAll("", old_, new_) == ""
  {
  }

  /** One step of the scan. */
  lemma ReplaceAllStep(s: string, old_: string, new_: string)
    requires |old_| > 0 && |s| > 0
    ensures ReplaceAll(s, old_, new_)
            == if old_ <= s then new_ + ReplaceAll(s[|old_|..], old_, new_)
               else [s[0]] + ReplaceAll(s[1..], old_, new_)
  {
  }

  /** Every character of `s` satisfies `p`. */
  predicate AllChars(s: string, p: char -> bool) {
    forall i :: 0 <= i < |s| ==> p(s[i])
  }

  /**
   * `re.sub(c + "{k+1,}", c * k, s)`, continuing after `run` copies of `c`
   * already written: every run of `c` longer than `k` is cut to `k`.
   */
  function CapRunsAfter(s: string, c: char, k: nat, run: nat): (r: string)
    ensures |r| <= |s|
    ensures forall i :: 0 <= i < |r| ==> r[i] in s
    decreases |s|
  {
    if s == [] then []
    else
      var next := if s[0] != c then 0 else if run >= k then run else run + 1;
      var rest := CapRunsAfter(s[1..], c, k, next);
      assert forall i :: 0 <= i < |rest| ==> rest[i] in s by {
        forall i | 0 <= i < |rest| ensures rest[i] in s {
          assert rest[i] in s[1..];
        }
      }
      if s[0] == c && run >= k then rest else [s[0]] + rest
  }

  function CapRuns(s: string, c: char, k: nat): string {
    CapRunsAfter(s, c, k, 0)
  }

  /** After squeezing runs of `c` to one, `c` never appears twice in a row. */
  lemma {:induction false} SqueezedNoDouble(s: string, c: char, run: nat)
    requires run <= 1
    ensures !Contains(CapRunsAfter(s, c, 1, run), [c, c])
    ensures run == 1 ==> CapRunsAfter(s, c, 1, run) == [] || CapRunsAfter(s, c, 1, run)[0] != c
    decreases |s|
  {
    if s != [] {
      var next := if s[0] == c then 1 else 0;
      SqueezedNoDouble(s[1..], c, next);
      var rest := CapRunsAfter(s[1..], c, 1, next);
      if !(s[0] == c && run >= 1) {
        var r := [s[0]] + rest;
        assert r[1..] == rest;
        if |r| >= 2 {
          assert r[0] == s[0] && r[1] == rest[0];
        }
        assert !([c, c] <= r);
      }
    }
  }

  /** Squeezing leaves a string without doubled `c` unchanged. */
  lemma {:induction false} SqueezeFixed(s: string, c: char, run: nat)
    requires run <= 1 && !Contains(s, [c, c])
    requires run == 1 && s != [] ==> s[0] != c
    ensures CapRunsAfter(s, c, 1, run) == s
    decreases |s|
  {
    if s != [] {
      assert !Contains(s[1..], [c, c]);
      if s[0] == c {
        assert !([c, c] <= s);
        SqueezeFixed(s[1..], c, 1);
      } else {
        SqueezeFixed(s[1..], c, 0);
      }
    }
  }

  /** One pass of `s.replace(c + c, c)` does not change what squeezing gives. */
  lemma {:induction false} ReplaceDoubledKeepsSqueeze(s: string, c: char, run: nat)
    requires run <= 1
    ensures CapRunsAfter(ReplaceAll(s, [c, c], [c]), c, 1, run) == CapRunsAfter(s, c, 1, run)
    decreases |s|
  {
    var cc := [c, c];
    if s == [] {
      ReplaceAllEmpty(cc, [c]);
    } else {
      ReplaceAllStep(s, cc, [c]);
      var r := ReplaceAll(s, cc, [c]);
      if cc <= s {
        var u := s[2..];
        ReplaceDoubledKeepsSqueeze(u, c, 1);
        assert r == [c] + ReplaceAll(u, cc, [c]);
        assert r[1..] == ReplaceAll(u, cc, [c]);
        assert s[1..][1..] == u;
        assert s[1..][0] == c;
      } else {
        var u := s[1..];
        ReplaceDoubledKeepsSqueeze(u, c, if s[0] == c then 1 else 0);
        assert r == [s[0]] + ReplaceAll(u, cc, [c]);
        assert r[1..] == ReplaceAll(u, cc, [c]);
      }
    }
  }

  /** `s.replace(c + c, c)` never lengthens `s`, and shortens it while `c + c` occurs. */
  lemma {:induction false} ReplaceDoubledShrinks(s: string, c: char)
    ensures |ReplaceAll(s, [c, c], [c])| <= |s|
    ensures Contains(s, [c, c]) ==> |ReplaceAll(s, [c, c], [c])| < |s|
    decreases |s|
  {
    var cc := [c, c];
    if s == [] {
      ReplaceAllEmpty(cc, [c]);
    } else {
      ReplaceAllStep(s, cc, [c]);
      if cc <= s {
        ReplaceDoubledShrinks(s[2..], c);
      } else {
        ReplaceDoubledShrinks(s[1..], c);
      }
    }
  }

  /** `s.replace(c + c, c)` introduces no character that `s` lacks. */
  lemma {:induction false} ReplaceDoubledAllChars(s: string, c: char, p: char -> bool)
    requires AllChars(s, p)
    ensures AllChars(ReplaceAll(s, [c, c], [c]), p)
    decreases |s|
  {
    var cc := [c, c];
    if s == [] {
      ReplaceAllEmpty(cc, [c]);
    } else {
      ReplaceAllStep(s, cc, [c]);
      var r := ReplaceAll(s, cc, [c]);
      if cc <= s {
        assert AllChars(s[2..], p) by { forall i | 0 <= i < |s[2..]| ensures p(s[2..][i]) { assert s[2..][i] == s[i + 2]; } }
        ReplaceDoubledAllChars(s[2..], c, p);
        assert r == [c] + ReplaceAll(s[2..], cc, [c]);
        assert c == s[0];
      } else {
        assert AllChars(s[1..], p) by { forall i | 0 <= i < |s[1..]| ensures p(s[1..][i]) { assert s[1..][i] == s[i + 1]; } }
        ReplaceDoubledAllChars(s[1..], c, p);
        assert r == [s[0]] + ReplaceAll(s[1..], cc, [c]);
      }
    }
  }

  // ---------------------------------------------------------------------
  // Paths

  /** Index of the last `c` in `s`. */
  function LastIndexOf(s: string, c: char): (r: Option<nat>)
    ensures r.Some? ==> r.value < |s| && s[r.value] == c && forall j :: r.value < j < |s| ==> s[j] != c
    ensures r.None? ==> forall j :: 0 <= j < |s| ==> s[j] != c
  {
    if s == [] then None
    else if s[|s| - 1] == c then Some(|s| - 1)
    else LastIndexOf(s[..|s| - 1], c)
  }

  /**
   * `os.path.splitext(p)` on a POSIX path: the extension starts at the last
   * dot of the last component, unless only dots precede it there.
   */
  function SplitExt(p: string): (r: (string, string))
    ensures r.0 + r.1 == p
  {
    var start := match LastIndexOf(p, '/') case None => 0 case Some(i) => i + 1;
    match LastIndexOf(p, '.')
    case None => (p, "")
    case Some(d) =>
      if d >= start && exists k :: start <= k < d && p[k] != '.' then (p[..d], p[d..]) else (p, "")
  }

  // ---------------------------------------------------------------------
  // Slices

  lemma ContainsFromSlice(s: string, i: nat, j: nat, p: string)
    requires i <= j <= |s|
    ensures Contains(s[i..j], p) ==> Contains(s, p)
  {
    if Contains(s[i..j], p) {
      ContainsInfix(s, i, j, p);
    }
  }

  /** A slice keeps "no occurrence of `p`" and "every character satisfies `q`". */
  lemma SliceKeeps(s: string, i: nat, j: nat, p: string, q: char -> bool)
    requires i <= j <= |s| && !Contains(s, p) && AllChars(s, q)
    ensures !Contains(s[i..j], p) && AllChars(s[i..j], q)
  {
    ContainsFromSlice(s, i, j, p);
    assert forall k :: 0 <= k < j - i ==> s[i..j][k] == s[i + k];
  }

  lemma TrimmedSlice(s: string, cs: set<char>, p: string, q: char -> bool)
    requires !Contains(s, p) && AllChars(s, q)
    ensures !Contains(TrimLeft(s, cs), p) && AllChars(TrimLeft(s, cs), q)
    ensures !Contains(TrimRight(s, cs), p) && AllChars(TrimRight(s, cs), q)
  {
    var l := TrimLeft(s, cs);
    var r := TrimRight(s, cs);
    SliceKeeps(s, |s| - |l|, |s|, p, q);
    assert s[|s| - |l|..|s|] == l;
    SliceKeeps(s, 0, |r|, p, q);
    assert s[0..|r|] == r;
  }

  /** What `strip` leaves is a part of the string. */
  lemma StripContained(s: string)
    ensures Contains(s, Strip(s))
  {
    var l := TrimLeft(s, Whitespace);
    var r := TrimRight(l, Whitespace);
    assert s[|s| - |l|..|s| - |l| + |r|] == r;
    assert Contains(r, r);
    ContainsInfix(s, |s| - |l|, |s| - |l| + |r|, r);
  }

  /** Length of the leading run of characters satisfying `p`. */
  function LeadingRun(t: string, p: char -> bool): (n: nat)
    ensures n <= |t|
    ensures forall i :: 0 <= i < n ==> p(t[i])
    ensures n < |t| ==> !p(t[n])
  {
    if t != [] && p(t[0]) then 1 + LeadingRun(t[1..], p) else 0
  }

  // ---------------------------------------------------------------------
  // Paragraph lists

  /** `[p.strip() for p in xs if p.strip()]`. */
  function StrippedNonBlank(xs: seq<string>): (r: seq<string>)
    ensures |r| <= |xs|
    ensures forall i :: 0 <= i < |r| ==> |r[i]| > 0
  {
    if xs == [] then []
    else
      var init := StrippedNonBlank(xs[..|xs| - 1]);
      var p := Strip(xs[|xs| - 1]);
      if |p| > 0 then init + [p] else init
  }

  /** The paragraphs of a text: its non-blank `\n\n`-separated pieces, stripped. */
  function Paragraphs(content: string): (r: seq<string>)
    ensures forall i :: 0 <= i < |r| ==> |r[i]| > 0
  {
    StrippedNonBlank(Split(content, "\n\n"))
  }

  /** `[sep.join(g) for g in groups]`. */
  function JoinEach(groups: seq<seq<string>>, sep: string): (r: seq<string>)
    ensures |r| == |groups|
    ensures forall i :: 0 <= i < |r| ==> r[i] == Join(groups[i], sep)
  {
    if groups == [] then [] else JoinEach(groups[..|groups| - 1], sep) + [Join(groups[|groups| - 1], sep)]
  }

  lemma JoinEachAppend(groups: seq<seq<string>>, g: seq<string>, sep: string)
    ensures JoinEach(groups + [g], sep) == JoinEach(groups, sep) + [Join(g, sep)]
  {
    assert (groups + [g])[..|groups|] == groups;
  }

  /** The groups one after another. */
  function Flatten<T>(groups: seq<seq<T>>): seq<T> {
    if groups == [] then [] else Flatten(groups[..|groups| - 1]) + groups[|groups| - 1]
  }

  lemma FlattenAppend<T>(groups: seq<seq<T>>, g: seq<T>)
    ensures Flatten(groups + [g]) == Flatten(groups) + g
  {
    assert (groups + [g])[..|groups|] == groups;
  }

  /** Groups that are all non-empty. */
  predicate NoEmptyGroup<T>(groups: seq<seq<T>>) {
    forall i :: 0 <= i < |groups| ==> groups[i] != []
  }

  /** Joining the joined groups is joining their paragraphs. */
  lemma {:induction false} JoinFlatten(groups: seq<seq<string>>, sep: string)
    requires NoEmptyGroup(groups)
    ensures Join(JoinEach(groups, sep), sep) == Join(Flatten(groups), sep)
    ensures groups != [] ==> Flatten(groups) != []
    decreases |groups|
  {
    if groups != [] {
      var init := groups[..|groups| - 1];
      var g := groups[|groups| - 1];
      assert NoEmptyGroup(init) by {
        forall i | 0 <= i < |init| ensures init[i] != [] { assert init[i] == groups[i]; }
      }
      JoinFlatten(init, sep);
      assert groups == init + [g];
      JoinEachAppend(init, g, sep);
      FlattenAppend(init, g);
      JoinAppend(JoinEach(init, sep), Join(g, sep), sep);
      if init != [] {
        JoinConcat(Flatten(init), g, sep);
      } else {
        assert Flatten(groups) == g;
      }
    }
  }

  // ---------------------------------------------------------------------
  // Integers as text

  function DigitChar(d: nat): (c: char)
    requires d < 10
    ensures IsAsciiDigit(c)
  {
    "0123456789"[d]
  }

  function DigitValue(c: char): nat
  {
    if IsAsciiDigit(c) then c as int - '0' as int else 0
  }

  /** Decimal rendering of a natural number, as `str(n)` prints it. */
  function NatToString(n: nat): (s: string)
    ensures |s| > 0
    ensures forall i :: 0 <= i < |s| ==> IsAsciiDigit(s[i])
    decreases n
  {
    if n < 10 then [DigitChar(n)] else NatToString(n / 10) + [DigitChar(n % 10)]
  }

  /** Python's `int(s)` on a string of ASCII digits. */
  function ParseNat(s: string): nat
  {
    if |s| == 0 then 0 else 10 * ParseNat(s[..|s| - 1]) + DigitValue(s[|s| - 1])
  }

  /** Parsing the rendering of `n` gives `n` back, so the rendering is
      injective. */
  lemma {:induction false} ParseNatToString(n: nat)
    ensures ParseNat(NatToString(n)) == n
    decreases n
  {
    if n < 10 {
      assert "0123456789"[n] as int - '0' as int == n;
    } else {
      var s := NatToString(n);
      assert s[..|s| - 1] == NatToString(n / 10);
      ParseNatToString(n / 10);
      assert "0123456789"[n % 10] as int - '0' as int == n % 10;
    }
  }

  lemma NatToStringInjective(m: nat, n: nat)
    requires NatToString(m) == NatToString(n)
    ensures m == n
  {
    ParseNatToString(m);
    ParseNatToString(n);
  }

  /** Identifiers made of one prefix and a decimal counter differ when the counters do. */
  lemma NumberedDistinct(prefix: string, m: nat, n: nat)
    requires m != n
    ensures prefix + NatToString(m) != prefix + NatToString(n)
  {
    if prefix + NatToString(m) == prefix + NatToString(n) {
      assert (prefix + NatToString(m))[|prefix|..] == NatToString(m);
      assert (prefix + NatToString(n))[|prefix|..] == NatToString(n);
      NatToStringInjective(m, n);
    }
  }

  function IntToString(i: int): string
  {
    if i < 0 then "-" + NatToString(-i) else NatToString(i)
  }
}
