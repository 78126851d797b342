/** The Python string operations the library's name handling is built from:
    `str.split(sep)`, `sep.join(parts)`, `sub in s`, `s.replace(sub, '')`,
    `str.split()` on whitespace, clamped slices and `str.lower()`. */
module PyStr {

  /** `s.split(sep)` for a non-empty separator: the fields between the
      non-overlapping occurrences of `sep`, found left to right. There is
      always at least one field, possibly empty. */
  function Split(s: string, sep: string): (parts: seq<string>)
    requires |sep| > 0
    ensures |parts| >= 1
    ensures |sep| == 1 && sep[0] in s ==> |parts| >= 2
    decreases |s|
  {
    if |s| == 0 then [""]
    else if sep <= s then [""] + Split(s[|sep|..], sep)
    else
      var rest := Split(s[1..], sep);
      [[s[0]] + rest[0]] + rest[1..]
  }

  /** `sep.join(parts)`. */
  function Join(parts: seq<string>, sep: string): string
    decreases |parts|
  {
    if |parts| == 0 then ""
    else if |parts| == 1 then parts[0]
    else parts[0] + sep + Join(parts[1..], sep)
  }

  /** `parts[-1]`. */
  function Last(parts: seq<string>): string
    requires |parts| > 0
  {
    parts[|parts| - 1]
  }

  /** `sub in s`: `sub` occurs in `s` as a contiguous substring. */
  predicate Contains(s: string, sub: string)
    decreases |s|
  {
    sub <= s || (|s| > 0 && Contains(s[1..], sub))
  }

  /** `s.replace(sub, '')`: every non-overlapping occurrence of `sub`, found
      left to right, removed. */
  function RemoveAll(s: string, sub: string): string
    requires |sub| > 0
    decreases |s|
  {
    if |s| == 0 then ""
    else if sub <= s then RemoveAll(s[|sub|..], sub)
    else [s[0]] + RemoveAll(s[1..], sub)
  }

  /** The characters Python's `str.split()` treats as whitespace. */
  predicate IsSpace(c: char) {
    c == ' ' || ('\t' <= c <= '\r') || ('\U{1C}' <= c <= '\U{1F}') ||
    c == '\U{85}' || c == '\U{A0}' || c == '\U{1680}' ||
    ('\U{2000}' <= c <= '\U{200A}') || c == '\U{2028}' || c == '\U{2029}' ||
    c == '\U{202F}' || c == '\U{205F}' || c == '\U{3000}'
  }

  predicate NoSpace(w: string) {
    forall i :: 0 <= i < |w| ==> !IsSpace(w[i])
  }

  /** `s.split()`: the maximal runs of non-whitespace characters, in order. */
  function Words(s: string): (ws: seq<string>)
    ensures forall i :: 0 <= i < |ws| ==> |ws[i]| > 0 && NoSpace(ws[i])
    ensures |s| > 0 && !IsSpace(s[0]) ==> |ws| > 0 && ws[0][0] == s[0]
    decreases |s|
  {
    if |s| == 0 then []
    else if IsSpace(s[0]) then Words(s[1..])
    else
      var rest := Words(s[1..]);
      if |s| > 1 && !IsSpace(s[1]) then [[s[0]] + rest[0]] + rest[1..]
      else [[s[0]]] + rest
  }

  /** `s[:n]`, which never fails: a string shorter than `n` is kept whole. */
  function Take(s: string, n: nat): (t: string)
    ensures t <= s && |t| == if n <= |s| then n else |s|
  {
    if n <= |s| then s[..n] else s
  }

  /** `s[n:]`, which never fails: empty when `s` is shorter than `n`. */
  function Drop(s: string, n: nat): (t: string)
    ensures Take(s, n) + t == s
  {
    if n <= |s| then s[n..] else ""
  }

  /** `s.lower()` on ASCII letters. */
  function Lower(s: string): (t: string)
    ensures |t| == |s|
    ensures forall i :: 0 <= i < |s| ==> ('A' <= s[i] <= 'Z' ==> t[i] as int == s[i] as int + 32)
    ensures forall i :: 0 <= i < |s| ==> (!('A' <= s[i] <= 'Z') ==> t[i] == s[i])
  {
    if |s| == 0 then ""
    else [if 'A' <= s[0] <= 'Z' then (s[0] as int + 32) as char else s[0]] + Lower(s[1..])
  }

  // ---------------------------------------------------------------------
  // split / join

  /** Joining the fields of a split with the same separator gives back the
      original string, for any separator. */
  lemma {:induction false} JoinSplit(s: string, sep: string)
    requires |sep| > 0
    ensures Join(Split(s, sep), sep) == s
    decreases |s|
  {
    if |s| == 0 {
    } else if sep <= s {
      JoinSplit(s[|sep|..], sep);
      JoinSplitAtSep(s, sep);
    } else {
      JoinSplit(s[1..], sep);
      JoinSplitAtChar(s, sep);
    }
  }

  /** The step of `JoinSplit` when `s` starts with the separator. */
  lemma JoinSplitAtSep(s: string, sep: string)
    requires |sep| > 0 && sep <= s
    requires Join(Split(s[|sep|..], sep), sep) == s[|sep|..]
    ensures Join(Split(s, sep), sep) == s
  {
    var rest := s[|sep|..];
    var t := Split(rest, sep);
    var p := [""] + t;
    assert Split(s, sep) == p;
    assert p[1..] == t;
    assert Join(p, sep) == "" + sep + Join(t, sep);
    assert s[..|sep|] == sep;
    assert "" + sep == sep;
    Recombine(s, |sep|);
  }

  /** The step of `JoinSplit` when `s` does not start with the separator. */
  lemma JoinSplitAtChar(s: string, sep: string)
    requires |sep| > 0 && |s| > 0 && !(sep <= s)
    requires Join(Split(s[1..], sep), sep) == s[1..]
    ensures Join(Split(s, sep), sep) == s
  {
    var rest, first := Split(s[1..], sep), [s[0]];
    assert Join(Split(s, sep), sep) == first + Join(rest, sep) by {
      SplitAtChar(s, sep);
      JoinConsFirst(first, rest, sep);
    }
    assert s == first + s[1..];
  }

  /** `Split` when `s` does not start with the separator: the first character
      joins the first field of the rest. */
  lemma SplitAtChar(s: string, sep: string)
    requires |sep| > 0 && |s| > 0 && !(sep <= s)
    ensures Split(s, sep) == [[s[0]] + Split(s[1..], sep)[0]] + Split(s[1..], sep)[1..]
  {
  }

  /** A string is its first `k` characters followed by the rest. */
  lemma Recombine(s: string, k: nat)
    requires k <= |s|
    ensures s == s[..k] + s[k..]
  {
  }

  /** Prefixing the first field prefixes the joined string. */
  lemma JoinConsFirst(a: string, parts: seq<string>, sep: string)
    requires |parts| > 0
    ensures Join([a + parts[0]] + parts[1..], sep) == a + Join(parts, sep)
  {
    var q := [a + parts[0]] + parts[1..];
    if |parts| > 1 {
      assert q[1..] == parts[1..];
    }
  }

  /** Joining a field in front of a non-empty list puts a separator after it. */
  lemma JoinCons(x: string, rest: seq<string>, sep: string)
    requires |rest| > 0
    ensures Join([x] + rest, sep) == x + sep + Join(rest, sep)
  {
    assert ([x] + rest)[1..] == rest;
  }

  /** Joining one more field appends the separator and the field. */
  lemma {:induction false} JoinAppend(parts: seq<string>, x: string, sep: string)
    requires |parts| > 0
    ensures Join(parts + [x], sep) == Join(parts, sep) + sep + x
    decreases |parts|
  {
    if |parts| == 1 {
      assert Join(parts + [x], sep) == parts[0] + sep + Join([x], sep);
    } else {
      assert (parts + [x])[1..] == parts[1..] + [x];
      JoinAppend(parts[1..], x, sep);
    }
  }

  /** A string without the separator character is a single field. */
  lemma {:induction false} SplitNoSep(s: string, c: char)
    requires c !in s
    ensures Split(s, [c]) == [s]
    decreases |s|
  {
    if |s| > 0 {
      assert s[0] != c;
      assert !([c] <= s);
      SplitNoSep(s[1..], c);
      assert [s[0]] + s[1..] == s;
    }
  }

  /** A split on a character has more than one field exactly when the
      character occurs. */
  lemma SplitHasSep(s: string, c: char)
    ensures |Split(s, [c])| >= 2 <==> c in s
  {
    if c !in s {
      SplitNoSep(s, c);
    }
  }

  /** The first field of a split on a character is a prefix of the string
      and does not contain the character. */
  lemma {:induction false} SplitFirstPrefix(s: string, c: char)
    ensures Split(s, [c])[0] <= s && c !in Split(s, [c])[0]
    decreases |s|
  {
    if |s| > 0 && !([c] <= s) {
      SplitFirstPrefix(s[1..], c);
      assert s == [s[0]] + s[1..];
    }
  }

  /** No `a` in `s` is directly followed by `b`. */
  predicate NoPair(s: string, a: char, b: char) {
    forall i :: 0 <= i < |s| - 1 ==> !(s[i] == a && s[i + 1] == b)
  }

  /** Two strings without the pair, joined where the pair does not form, make
      a string without it. */
  lemma NoPairConcat(x: string, y: string, a: char, b: char)
    requires NoPair(x, a, b) && NoPair(y, a, b)
    requires |x| > 0 && |y| > 0 ==> !(x[|x| - 1] == a && y[0] == b)
    ensures NoPair(x + y, a, b)
  {
    var s := x + y;
    forall i | 0 <= i < |s| - 1
      ensures !(s[i] == a && s[i + 1] == b)
    {
      if i + 1 < |x| {
        assert s[i] == x[i] && s[i + 1] == x[i + 1];
      } else if i >= |x| {
        assert s[i] == y[i - |x|] && s[i + 1] == y[i + 1 - |x|];
      }
    }
  }

  /** A string without `a` has no pair starting with it. */
  lemma NoPairWithout(s: string, a: char, b: char)
    requires a !in s
    ensures NoPair(s, a, b)
  {
    forall i | 0 <= i < |s| - 1
      ensures s[i] != a
    {
      assert s[i] in s;
    }
  }

  /** When the first occurrence of `sep` in `s` is at `k`, the first field is
      everything before it and the other fields are those of the rest. */
  lemma {:induction false} SplitAtFirst(s: string, sep: string, k: nat)
    requires |sep| > 0 && k + |sep| <= |s| && sep <= s[k..]
    requires forall i :: 0 <= i < k ==> !(sep <= s[i..])
    ensures Split(s, sep) == [s[..k]] + Split(s[k + |sep|..], sep)
    decreases k
  {
    if k == 0 {
      assert s[0..] == s;
    } else {
      assert s[0..] == s;
      var t := s[1..];
      assert t[k - 1..] == s[k..];
      forall i | 0 <= i < k - 1
        ensures !(sep <= t[i..])
      {
        assert t[i..] == s[i + 1..];
      }
      SplitAtFirst(t, sep, k - 1);
      assert t[k - 1 + |sep|..] == s[k + |sep|..];
      assert [s[0]] + t[..k - 1] == s[..k];
    }
  }

  /** A string without the separator's first character is a single field. */
  lemma {:induction false} SplitNoFirst(s: string, sep: string)
    requires |sep| > 0 && sep[0] !in s
    ensures Split(s, sep) == [s]
    decreases |s|
  {
    if |s| > 0 {
      assert s[0] != sep[0];
      SplitNoFirst(s[1..], sep);
      assert [s[0]] + s[1..] == s;
    }
  }

  /** A separator whose first two characters differ, after a string in which
      they never appear in a row, and before a string without its first
      character, splits the whole into exactly those two strings. */
  lemma SplitOnce(pre: string, sep: string, post: string)
    requires |sep| >= 2 && sep[0] != sep[1] && NoPair(pre, sep[0], sep[1]) && sep[0] !in post
    ensures Split(pre + sep + post, sep) == [pre, post]
  {
    var s := pre + sep + post;
    var k := |pre|;
    assert s[k..][..|sep|] == sep;
    forall i | 0 <= i < k
      ensures !(sep <= s[i..])
    {
      if i + 1 < k {
        assert s[i] == pre[i] && s[i + 1] == pre[i + 1];
        assert !(pre[i] == sep[0] && pre[i + 1] == sep[1]);
      } else {
        assert s[i + 1] == sep[0];
      }
    }
    SplitAtFirst(s, sep, k);
    assert s[..k] == pre && s[k + |sep|..] == post;
    SplitNoFirst(post, sep);
  }

  /** Splitting on a single character distributes over one occurrence of it:
      the fields left of it followed by the fields right of it. */
  lemma {:induction false} SplitAround(x: string, c: char, y: string)
    ensures Split(x + [c] + y, [c]) == Split(x, [c]) + Split(y, [c])
    decreases |x|
  {
    var s := x + [c] + y;
    if |x| == 0 {
      assert [c] <= s;
      assert s[1..] == y;
    } else if x[0] == c {
      assert [c] <= s && [c] <= x;
      assert s[1..] == x[1..] + [c] + y;
      SplitAround(x[1..], c, y);
    } else {
      assert !([c] <= s) && !([c] <= x);
      assert s[1..] == x[1..] + [c] + y;
      SplitAround(x[1..], c, y);
      assert Split(s[1..], [c]) == Split(x[1..], [c]) + Split(y, [c]);
    }
  }

  /** No field of a split on a character contains that character. */
  lemma {:induction false} SplitFieldsFree(s: string, c: char)
    ensures forall i :: 0 <= i < |Split(s, [c])| ==> c !in Split(s, [c])[i]
    decreases |s|
  {
    if |s| > 0 {
      SplitFieldsFree(s[1..], c);
      if [c] <= s {
        assert s[1..] == s[|[c]|..];
      } else {
        assert s[0] != c;
      }
    }
  }

  /** Splitting a join of separator-free fields gives the fields back. */
  lemma {:induction false} SplitJoin(parts: seq<string>, c: char)
    requires |parts| > 0
    requires forall i :: 0 <= i < |parts| ==> c !in parts[i]
    ensures Split(Join(parts, [c]), [c]) == parts
    decreases |parts|
  {
    if |parts| == 1 {
      SplitNoSep(parts[0], c);
    } else {
      SplitJoin(parts[1..], c);
      SplitAround(parts[0], c, Join(parts[1..], [c]));
      SplitNoSep(parts[0], c);
      assert [parts[0]] + parts[1..] == parts;
    }
  }

  /** A character in neither half is not in their concatenation. */
  lemma PrefixFree(a: string, b: string, c: char)
    requires c !in a && c !in b
    ensures c !in a + b
  {
    assert forall i :: 0 <= i < |a + b| ==> (a + b)[i] == if i < |a| then a[i] else b[i - |a|];
  }

  /** The fields of `a + "c" + b + "c" + d` for separator-free a, b, d. */
  lemma Split3(a: string, b: string, d: string, c: char)
    requires c !in a && c !in b && c !in d
    ensures Split(a + [c] + b + [c] + d, [c]) == [a, b, d]
  {
    var t := b + [c] + d;
    assert a + [c] + b + [c] + d == a + [c] + t;
    assert Split(a + [c] + t, [c]) == Split(a, [c]) + Split(t, [c]) by { SplitAround(a, c, t); }
    assert Split(t, [c]) == [b, d] by { Split2(b, d, c); }
    assert Split(a, [c]) == [a] by { SplitNoSep(a, c); }
  }

  /** The fields of `a + "c" + b` for separator-free a and b. */
  lemma Split2(a: string, b: string, c: char)
    requires c !in a && c !in b
    ensures Split(a + [c] + b, [c]) == [a, b]
  {
    SplitAround(a, c, b);
    SplitNoSep(a, c);
    SplitNoSep(b, c);
  }

  // ---------------------------------------------------------------------
  // containment and replace

  /** A string that lacks the first character of `sub` does not contain it. */
  lemma {:induction false} NotContainsFirst(s: string, sub: string)
    requires |sub| > 0 && sub[0] !in s
    ensures !Contains(s, sub)
    decreases |s|
  {
    if |s| > 0 {
      assert s[0] != sub[0];
      NotContainsFirst(s[1..], sub);
    }
  }

  /** A string that begins with `sub` contains it. */
  lemma PrefixContains(s: string, sub: string)
    requires sub <= s
    ensures Contains(s, sub)
  {
  }

  /** Removing a substring that does not occur leaves the string unchanged. */
  lemma {:induction false} RemoveAllAbsent(s: string, sub: string)
    requires |sub| > 0 && !Contains(s, sub)
    ensures RemoveAll(s, sub) == s
    decreases |s|
  {
    if |s| > 0 {
      RemoveAllAbsent(s[1..], sub);
      assert [s[0]] + s[1..] == s;
    }
  }

  // ---------------------------------------------------------------------
  // whitespace split

  /** A non-empty word followed by whitespace is the first field of `split()`. */
  lemma {:induction false} WordsCons(w: string, sp: char, rest: string)
    requires |w| > 0 && NoSpace(w) && IsSpace(sp)
    ensures Words(w + [sp] + rest) == [w] + Words(rest)
    decreases |w|
  {
    var s := w + [sp] + rest;
    assert s[0] == w[0] && !IsSpace(s[0]);
    if |w| == 1 {
      assert s[1] == sp;
      assert s[1..] == [sp] + rest;
      assert ([sp] + rest)[1..] == rest;
      assert Words(s[1..]) == Words(rest);
      assert [s[0]] == w;
    } else {
      assert s[1] == w[1];
      assert s[1..] == w[1..] + [sp] + rest;
      WordsCons(w[1..], sp, rest);
      assert [w[0]] + w[1..] == w;
    }
  }

  /** A non-empty string without whitespace is one word. */
  lemma {:induction false} WordsSingle(w: string)
    requires |w| > 0 && NoSpace(w)
    ensures Words(w) == [w]
    decreases |w|
  {
    if |w| == 1 {
      assert Words(w[1..]) == [];
      assert [w[0]] == w;
    } else {
      WordsSingle(w[1..]);
      assert w[1] == w[1..][0];
      assert [w[0]] + w[1..] == w;
    }
  }
}
