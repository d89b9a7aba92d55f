/** The part of Go's `strings` package that the NATS configuration code calls.
    Strings are sequences of Unicode code points. */
module GoStrings {

  // unicode.IsSpace
  const WHITESPACE: set<char> := {
    '\t', '\n', '\U{0B}', '\U{0C}', '\r', ' ', '\U{85}', '\U{A0}', '\U{1680}',
    '\U{2000}', '\U{2001}', '\U{2002}', '\U{2003}', '\U{2004}', '\U{2005}', '\U{2006}',
    '\U{2007}', '\U{2008}', '\U{2009}', '\U{200A}', '\U{2028}', '\U{2029}', '\U{202F}',
    '\U{205F}', '\U{3000}'
  }

  /* ----- trimming ----- */

  function TrimLeft(s: string, cut: set<char>): (r: string)
    ensures |r| <= |s|
  {
    if s != "" && s[0] in cut then TrimLeft(s[1..], cut) else s
  }

  function TrimRight(s: string, cut: set<char>): (r: string)
    ensures |r| <= |s|
  {
    if s != "" && s[|s| - 1] in cut then TrimRight(s[..|s| - 1], cut) else s
  }

  lemma {:induction false} TrimLeftMeaning(s: string, cut: set<char>)
    ensures var r := TrimLeft(s, cut);
      && r == s[|s| - |r|..]
      && (r == "" || r[0] !in cut)
      && forall k :: 0 <= k < |s| - |r| ==> s[k] in cut
  {
    if s != "" && s[0] in cut {
      TrimLeftMeaning(s[1..], cut);
    }
  }

  lemma {:induction false} TrimRightMeaning(s: string, cut: set<char>)
    ensures var r := TrimRight(s, cut);
      && r <= s
      && (r == "" || r[|r| - 1] !in cut)
      && forall k :: |r| <= k < |s| ==> s[k] in cut
  {
    if s != "" && s[|s| - 1] in cut {
      TrimRightMeaning(s[..|s| - 1], cut);
    }
  }

  function Trim(s: string, cut: set<char>): (r: string)
    ensures |r| <= |s|
  {
    TrimRight(TrimLeft(s, cut), cut)
  }

  function TrimSpace(s: string): (r: string)
    ensures |r| <= |s|
  {
    Trim(s, WHITESPACE)
  }

  lemma TrimChars(s: string, cut: set<char>, c: char)
    requires c in Trim(s, cut)
    ensures c in s
  {
    hide TrimLeft, TrimRight;
    TrimLeftMeaning(s, cut);
    TrimRightMeaning(TrimLeft(s, cut), cut);
    assert c in TrimLeft(s, cut);
  }

  predicate NoEdge(s: string, cut: set<char>) {
    s == "" || (s[0] !in cut && s[|s| - 1] !in cut)
  }

  lemma TrimFixedPoint(s: string, cut: set<char>)
    ensures Trim(s, cut) == s <==> NoEdge(s, cut)
    ensures NoEdge(Trim(s, cut), cut)
  {
    hide TrimLeft, TrimRight;
    TrimLeftMeaning(s, cut);
    TrimRightMeaning(TrimLeft(s, cut), cut);
    var left := TrimLeft(s, cut);
    var t := TrimRight(left, cut);
    if t != "" {
      assert t[0] == left[0];
    }
  }

  lemma {:induction false} TrimLeftAppend(s: string, t: string, cut: set<char>)
    ensures TrimLeft(s + t, cut) == if TrimLeft(s, cut) == "" then TrimLeft(t, cut) else TrimLeft(s, cut) + t
  {
    if s == "" {
      assert s + t == t;
    } else if s[0] in cut {
      assert (s + t)[1..] == s[1..] + t;
      TrimLeftAppend(s[1..], t, cut);
    }
  }

  lemma TrimRightSnoc(s: string, c: char, cut: set<char>)
    requires c in cut
    ensures TrimRight(s + [c], cut) == TrimRight(s, cut)
  {
    assert (s + [c])[..|s|] == s;
  }

  // Wrapping a string in a character that Trim removes does not change the result of Trim.
  lemma TrimWrapped(c: char, s: string)
    ensures Trim([c] + s + [c], {c}) == Trim(s, {c})
  {
    var cut := {c};
    assert ([c] + s + [c])[1..] == s + [c];
    assert TrimLeft([c] + s + [c], cut) == TrimLeft(s + [c], cut);
    TrimLeftAppend(s, [c], cut);
    var left := TrimLeft(s, cut);
    if left == "" {
      assert [c][1..] == "";
      assert TrimLeft([c], cut) == "";
    } else {
      TrimRightSnoc(left, c, cut);
    }
  }

  /* ----- searching ----- */

  predicate Occurs(s: string, sub: string, i: int) {
    0 <= i <= |s| - |sub| && s[i..i + |sub|] == sub
  }

  predicate HasPrefix(s: string, prefix: string) { prefix <= s }

  predicate HasSuffix(s: string, suffix: string) { |suffix| <= |s| && s[|s| - |suffix|..] == suffix }

  function IndexFrom(s: string, sub: string, k: nat): (i: int)
    ensures i == -1 || (k <= i && Occurs(s, sub, i))
    decreases |s| - k
  {
    if k + |sub| > |s| then -1
    else if s[k..k + |sub|] == sub then k
    else IndexFrom(s, sub, k + 1)
  }

  // strings.Index: the first occurrence, or -1.
  function Index(s: string, sub: string): (i: int)
    ensures i == -1 || Occurs(s, sub, i)
  {
    IndexFrom(s, sub, 0)
  }

  lemma {:induction false} IndexFromIsFirst(s: string, sub: string, k: nat, j: int)
    requires k <= j && (IndexFrom(s, sub, k) == -1 || j < IndexFrom(s, sub, k))
    ensures !Occurs(s, sub, j)
    decreases |s| - k
  {
    if k + |sub| <= |s| && k < j {
      IndexFromIsFirst(s, sub, k + 1, j);
    }
  }

  lemma IndexIsFirst(s: string, sub: string, j: int)
    requires Index(s, sub) == -1 || j < Index(s, sub)
    ensures !Occurs(s, sub, j)
  {
    if j >= 0 {
      IndexFromIsFirst(s, sub, 0, j);
    }
  }

  // The converse: an occurrence before which there is none is the one found.
  lemma IndexFound(s: string, sub: string, i: int)
    requires Occurs(s, sub, i) && forall j :: 0 <= j < i ==> !Occurs(s, sub, j)
    ensures Index(s, sub) == i
  {
    hide IndexFrom, Occurs;
    if Index(s, sub) == -1 || i < Index(s, sub) {
      IndexIsFirst(s, sub, i);
    }
    OccursRange(s, sub, Index(s, sub));
  }

  lemma OccursRange(s: string, sub: string, i: int)
    ensures Occurs(s, sub, i) ==> 0 <= i <= |s| - |sub|
  {
  }

  ghost predicate Contains(s: string, sub: string) { exists i :: Occurs(s, sub, i) }

  // An occurrence cannot straddle a character that the searched string does not contain.
  lemma OccursBesideSeparator(a: string, c: char, b: string, sub: string, i: int)
    requires sub != "" && c !in sub
    requires Occurs(a + [c] + b, sub, i)
    ensures Occurs(a, sub, i) || Occurs(b, sub, i - |a| - 1)
  {
    var s := a + [c] + b;
    assert s[|a|] == c;
    assert forall k :: i <= k < i + |sub| ==> s[k] == s[i..i + |sub|][k - i];
    if i <= |a| < i + |sub| {
      assert false;
    } else if i + |sub| <= |a| {
      assert s[i..i + |sub|] == a[i..i + |sub|];
    } else {
      assert s[i..i + |sub|] == b[i - |a| - 1..i - |a| - 1 + |sub|];
    }
  }

  /* ----- splitting and joining ----- */

  function Split(s: string, sep: char): (parts: seq<string>)
    ensures |parts| >= 1
  {
    if s == "" then [""]
    else
      var rest := Split(s[1..], sep);
      if s[0] == sep then [""] + rest else [[s[0]] + rest[0]] + rest[1..]
  }

  // No part contains the separator, nor any character that the whole lacks.
  lemma {:induction false} SplitChars(s: string, sep: char, c: char)
    requires c == sep || c !in s
    ensures forall k :: 0 <= k < |Split(s, sep)| ==> c !in Split(s, sep)[k]
  {
    if s != "" {
      SplitChars(s[1..], sep, c);
      var rest := Split(s[1..], sep);
      assert c !in rest[0];
    }
  }

  // Joining what was split gives the text back.
  lemma {:induction false} JoinSplit(s: string, sep: char)
    ensures Join(Split(s, sep), [sep]) == s
  {
    if s != "" {
      var rest := Split(s[1..], sep);
      JoinSplit(s[1..], sep);
      assert s == [s[0]] + s[1..];
      if s[0] == sep {
        assert Split(s, sep) == [""] + rest && ([""] + rest)[1..] == rest;
      } else {
        var parts := [[s[0]] + rest[0]] + rest[1..];
        assert Split(s, sep) == parts && parts[1..] == rest[1..];
        if |rest| > 1 {
          assert Join(parts, [sep]) == [s[0]] + rest[0] + [sep] + Join(rest[1..], [sep]);
        }
      }
    }
  }

  function Join(parts: seq<string>, sep: string): string {
    if |parts| == 0 then ""
    else if |parts| == 1 then parts[0]
    else parts[0] + sep + Join(parts[1..], sep)
  }

  lemma {:induction false} SplitPrefix(a: string, rest: string, sep: char)
    requires sep !in a
    ensures Split(a + [sep] + rest, sep) == [a] + Split(rest, sep)
  {
    var s := a + [sep] + rest;
    if a == "" {
      assert s[1..] == rest;
    } else {
      assert a[0] in a && s[0] != sep;
      assert s[1..] == a[1..] + [sep] + rest;
      SplitPrefix(a[1..], rest, sep);
      assert [a[0]] + a[1..] == a;
    }
  }

  lemma {:induction false} SplitWhole(a: string, sep: char)
    requires sep !in a
    ensures Split(a, sep) == [a]
  {
    if a != "" {
      assert a[0] in a;
      SplitWhole(a[1..], sep);
      assert [a[0]] + a[1..] == a;
    }
  }

  // Splitting at a separator what was joined with that separator and a filler.
  lemma {:induction false} SplitJoin(parts: seq<string>, sep: char, filler: string)
    requires |parts| >= 1 && sep !in filler
    requires forall p :: p in parts ==> sep !in p
    ensures Split(Join(parts, [sep] + filler), sep)
         == seq(|parts|, i requires 0 <= i < |parts| => if i == 0 then parts[0] else filler + parts[i])
    decreases |parts|
  {
    if |parts| == 1 {
      SplitWhole(parts[0], sep);
    } else {
      var tail := [filler + parts[1]] + parts[2..];
      JoinAbsorbs(parts[1..], filler, [sep] + filler);
      assert tail == [filler + parts[1..][0]] + parts[1..][1..];
      assert Join(parts, [sep] + filler) == parts[0] + [sep] + Join(tail, [sep] + filler);
      SplitPrefix(parts[0], Join(tail, [sep] + filler), sep);
      SplitJoin(tail, sep, filler);
    }
  }

  lemma JoinAbsorbs(parts: seq<string>, filler: string, sep: string)
    requires |parts| >= 1
    ensures Join([filler + parts[0]] + parts[1..], sep) == filler + Join(parts, sep)
  {
    var p := [filler + parts[0]] + parts[1..];
    if |parts| > 1 {
      assert p[1..] == parts[1..];
      assert Join(p, sep) == filler + parts[0] + sep + Join(parts[1..], sep);
    }
  }

  lemma {:induction false} JoinChars(parts: seq<string>, sep: string, c: char)
    requires c !in sep && forall p :: p in parts ==> c !in p
    ensures c !in Join(parts, sep)
  {
    if |parts| > 1 {
      JoinChars(parts[1..], sep, c);
    }
  }

  lemma {:induction false} JoinAppend(parts: seq<string>, last: string, sep: string)
    requires |parts| >= 1
    ensures Join(parts + [last], sep) == Join(parts, sep) + sep + last
  {
    var all := parts + [last];
    assert all[1..] == parts[1..] + [last];
    if |parts| > 1 {
      JoinAppend(parts[1..], last, sep);
    }
  }

  /* ----- letter case ----- */

  function LowerChar(c: char): (r: char)
    ensures r == c || ('A' <= c <= 'Z' && 'a' <= r <= 'z')
  {
    if 'A' <= c <= 'Z' then (c as int + 32) as char else c
  }

  function ToLower(s: string): (r: string)
    ensures |r| == |s| && forall i :: 0 <= i < |s| ==> r[i] == LowerChar(s[i])
  {
    seq(|s|, i requires 0 <= i < |s| => LowerChar(s[i]))
  }

  // strings.ReplaceAll for a one-character pattern.
  function ReplaceAll(s: string, old_: char, new_: string): string {
    if s == "" then "" else (if s[0] == old_ then new_ else [s[0]]) + ReplaceAll(s[1..], old_, new_)
  }
}
