/** Strings as the program handles them: a Go string is a sequence of characters, and only the
    ASCII part of trimming and case folding is modelled. */
module Text {

  datatype Option<+T> = None | Some(value: T)

  predicate HasPrefix(s: string, p: string) { p <= s }

  /** strings.TrimPrefix: unchanged when the prefix is absent. */
  function TrimPrefix(s: string, p: string): string {
    if p <= s then s[|p|..] else s
  }

  /** strings.Split on a one-character separator. */
  function Split(s: string, sep: char): (parts: seq<string>)
    ensures |parts| >= 1
  {
    if s == "" then [""]
    else
      var rest := Split(s[1..], sep);
      if s[0] == sep then [""] + rest else [[s[0]] + rest[0]] + rest[1..]
  }

  /** strings.Join with a one-character separator. */
  function Join(parts: seq<string>, sep: char): string
    requires |parts| >= 1
  {
    if |parts| == 1 then parts[0] else parts[0] + [sep] + Join(parts[1..], sep)
  }

  lemma {:induction false} SplitWithout(s: string, sep: char)
    requires sep !in s
    ensures Split(s, sep) == [s]
  {
    if s != "" {
      SplitWithout(s[1..], sep);
      assert [s[0]] + s[1..] == s;
    }
  }

  lemma {:induction false} SplitCons(a: string, sep: char, b: string)
    requires sep !in a
    ensures Split(a + [sep] + b, sep) == [a] + Split(b, sep)
  {
    var s := a + [sep] + b;
    if a == "" {
      assert s[1..] == b;
    } else {
      SplitCons(a[1..], sep, b);
      assert s[1..] == a[1..] + [sep] + b;
      assert [a[0]] + a[1..] == a;
    }
  }

  /** The first component of a text is determined by the separator that ends it. */
  lemma SameFirst(a: string, b: string, sep: char, rest: string)
    requires sep !in a && sep !in b
    requires b + [sep] <= a + [sep] + rest
    ensures a == b
  {
    var s := a + [sep] + rest;
    var rest' := s[|b| + 1..];
    assert s == b + [sep] + rest';
    SplitCons(a, sep, rest);
    SplitCons(b, sep, rest');
    assert Split(s, sep)[0] == a && Split(s, sep)[0] == b;
  }

  lemma PrefixAfter(k: string, u: string, v: string)
    ensures k + u <= k + v <==> u <= v
  {
    assert (k + u)[|k|..] == u && (k + v)[|k|..] == v;
    if k + u <= k + v {
      assert u == (k + v)[|k|..|k| + |u|] == v[..|u|];
    }
  }

  /** Splitting undoes joining when no part holds the separator. */
  lemma {:induction false} SplitJoin(parts: seq<string>, sep: char)
    requires |parts| >= 1
    requires forall i :: 0 <= i < |parts| ==> sep !in parts[i]
    ensures Split(Join(parts, sep), sep) == parts
  {
    if |parts| == 1 {
      SplitWithout(parts[0], sep);
    } else {
      SplitJoin(parts[1..], sep);
      SplitCons(parts[0], sep, Join(parts[1..], sep));
    }
  }

  /** How one more character in front changes the parts. */
  function WithFirst(c: char, sep: char, parts: seq<string>): seq<string>
    requires parts != []
  {
    if c == sep then [""] + parts else [[c] + parts[0]] + parts[1..]
  }

  lemma SplitFront(c: char, t: string, sep: char)
    ensures Split([c] + t, sep) == WithFirst(c, sep, Split(t, sep))
  {
    assert ([c] + t)[1..] == t;
  }

  lemma WithFirstAppend(c: char, sep: char, parts: seq<string>, more: seq<string>)
    requires parts != []
    ensures WithFirst(c, sep, parts + more) == WithFirst(c, sep, parts) + more
  {
    assert (parts + more)[1..] == parts[1..] + more;
  }

  lemma {:induction false} SplitAppend(a: string, sep: char, b: string)
    ensures Split(a + [sep] + b, sep) == Split(a, sep) + Split(b, sep)
    decreases |a|
  {
    if a == "" {
      assert a + [sep] + b == [sep] + b;
      SplitFront(sep, b, sep);
    } else {
      var c, t := a[0], a[1..];
      assert a == [c] + t && a + [sep] + b == [c] + (t + [sep] + b);
      SplitAppend(t, sep, b);
      SplitFront(c, t, sep);
      SplitFront(c, t + [sep] + b, sep);
      WithFirstAppend(c, sep, Split(t, sep), Split(b, sep));
    }
  }

  /** Joining undoes splitting. */
  lemma {:induction false} JoinSplit(s: string, sep: char)
    ensures Join(Split(s, sep), sep) == s
  {
    if s != "" {
      JoinSplit(s[1..], sep);
      var rest := Split(s[1..], sep);
      if s[0] == sep {
        assert ([""] + rest)[1..] == rest;
      } else {
        assert Split(s, sep)[1..] == rest[1..];
      }
    }
  }

  lemma {:induction false} JoinAppend(a: seq<string>, b: seq<string>, sep: char)
    requires a != [] && b != []
    ensures Join(a + b, sep) == Join(a, sep) + [sep] + Join(b, sep)
  {
    if |a| == 1 {
      assert (a + b)[1..] == b;
    } else {
      JoinAppend(a[1..], b, sep);
      assert (a + b)[1..] == a[1..] + b;
    }
  }

  /** A text begins with another and a separator exactly when the other's parts are its first parts, and
      not all of them. */
  lemma PartsPrefix(s: string, t: string, sep: char)
    ensures HasPrefix(t, s + [sep]) <==> |Split(s, sep)| < |Split(t, sep)| && Split(t, sep)[..|Split(s, sep)|] == Split(s, sep)
  {
    var a, b := Split(s, sep), Split(t, sep);
    JoinSplit(s, sep);
    JoinSplit(t, sep);
    if HasPrefix(t, s + [sep]) {
      var rest := t[|s| + 1..];
      assert t == s + [sep] + rest;
      SplitAppend(s, sep, rest);
      assert (a + Split(rest, sep))[..|a|] == a;
    }
    if |a| < |b| && b[..|a|] == a {
      assert b == a + b[|a|..];
      JoinAppend(a, b[|a|..], sep);
    }
  }

  /** A string without the separator followed by anything: only the first part is touched. */
  lemma {:induction false} SplitFirst(a: string, sep: char, tail: string)
    requires sep !in a
    requires tail == "" || tail[0] == sep
    ensures Split(a + tail, sep)[0] == a
    ensures |Split(a + tail, sep)| >= 2 <==> tail != ""
  {
    if tail == "" {
      assert a + tail == a;
      SplitWithout(a, sep);
    } else {
      assert a + tail == a + [sep] + tail[1..];
      SplitCons(a, sep, tail[1..]);
    }
  }

  /** The ASCII characters that strings.TrimSpace removes. */
  predicate IsSpace(c: char) {
    c == ' ' || '\t' <= c <= '\r'
  }

  function TrimLeft(s: string): string {
    if s != "" && IsSpace(s[0]) then TrimLeft(s[1..]) else s
  }

  function TrimRight(s: string): string {
    if s != "" && IsSpace(s[|s| - 1]) then TrimRight(s[..|s| - 1]) else s
  }

  lemma {:induction false} TrimLeftSuffix(s: string)
    ensures var t := TrimLeft(s); (t == "" || !IsSpace(t[0])) && |t| <= |s| && t == s[|s| - |t|..]
  {
    if s != "" && IsSpace(s[0]) { TrimLeftSuffix(s[1..]); }
  }

  lemma {:induction false} TrimRightPrefix(s: string)
    ensures var t := TrimRight(s); (t == "" || !IsSpace(t[|t| - 1])) && t <= s
  {
    if s != "" && IsSpace(s[|s| - 1]) { TrimRightPrefix(s[..|s| - 1]); }
  }

  function TrimSpace(s: string): string { TrimRight(TrimLeft(s)) }

  /** A string that trimming leaves alone. */
  predicate Trimmed(s: string) {
    s == "" || (!IsSpace(s[0]) && !IsSpace(s[|s| - 1]))
  }

  lemma {:induction false} TrimSpaceTrims(s: string)
    ensures Trimmed(TrimSpace(s))
    ensures TrimSpace(s) == s <==> Trimmed(s)
    ensures |TrimSpace(s)| <= |s|
  {
    var l := TrimLeft(s);
    var t := TrimRight(l);
    TrimLeftSuffix(s);
    TrimRightPrefix(l);
    assert t != "" ==> t[0] == l[0];
  }

  lemma {:induction false} TrimRightSpaces(s: string, w: string)
    requires s == "" || !IsSpace(s[|s| - 1])
    requires forall i :: 0 <= i < |w| ==> IsSpace(w[i])
    ensures TrimRight(s + w) == s
    decreases |w|
  {
    if w == "" {
      assert s + w == s;
    } else {
      assert (s + w)[..|s + w| - 1] == s + w[..|w| - 1];
      TrimRightSpaces(s, w[..|w| - 1]);
    }
  }

  lemma {:induction false} TrimLeftSpaces(w: string, s: string)
    requires s == "" || !IsSpace(s[0])
    requires forall i :: 0 <= i < |w| ==> IsSpace(w[i])
    ensures TrimLeft(w + s) == s
    decreases |w|
  {
    if w == "" {
      assert w + s == s;
    } else {
      assert (w + s)[1..] == w[1..] + s;
      TrimLeftSpaces(w[1..], s);
    }
  }

  /** Surrounding white space is all that trimming removes. */
  lemma TrimSpaceAround(w0: string, s: string, w1: string)
    requires Trimmed(s)
    requires forall i :: 0 <= i < |w0| ==> IsSpace(w0[i])
    requires forall i :: 0 <= i < |w1| ==> IsSpace(w1[i])
    ensures TrimSpace(w0 + s + w1) == s
  {
    if s == "" {
      var w := w0 + w1;
      assert w0 + s + w1 == w + s;
      TrimLeftSpaces(w, s);
    } else {
      assert w0 + s + w1 == w0 + (s + w1);
      TrimLeftSpaces(w0, s + w1);
      TrimRightSpaces(s, w1);
    }
  }

  function ToLowerChar(c: char): char {
    if 'A' <= c <= 'Z' then (c as int - 'A' as int + 'a' as int) as char else c
  }

  function ToLower(s: string): (t: string)
    ensures |t| == |s|
    ensures forall i :: 0 <= i < |s| ==> t[i] == ToLowerChar(s[i])
  {
    seq(|s|, i requires 0 <= i < |s| => ToLowerChar(s[i]))
  }

  /** Capital letters become the small ones at the same place in the alphabet, and nothing else changes. */
  lemma ToLowerLetters(i: nat, c: char)
    requires i < 26
    ensures ToLowerChar("ABCDEFGHIJKLMNOPQRSTUVWXYZ"[i]) == "abcdefghijklmnopqrstuvwxyz"[i]
    ensures ToLowerChar(c) != c ==> c in "ABCDEFGHIJKLMNOPQRSTUVWXYZ"
  {
    if 'A' <= c <= 'Z' { assert "ABCDEFGHIJKLMNOPQRSTUVWXYZ"[c as int - 'A' as int] == c; }
  }

  lemma ToLowerIdempotent(s: string)
    ensures ToLower(ToLower(s)) == ToLower(s)
  {
  }

  /** strings.Contains. */
  ghost predicate Contains(s: string, sub: string) {
    exists i :: 0 <= i <= |s| && sub <= s[i..]
  }

  lemma {:induction false} TrimRightKeeps(p: string, rest: string)
    requires p != "" && !IsSpace(p[|p| - 1])
    ensures p <= TrimRight(p + rest)
    decreases |rest|
  {
    var s := p + rest;
    if rest == "" {
      assert s == p;
    } else if IsSpace(s[|s| - 1]) {
      assert s[..|s| - 1] == p + rest[..|rest| - 1];
      TrimRightKeeps(p, rest[..|rest| - 1]);
    }
  }

  /** Trimming keeps a start that begins and ends with something other than white space. */
  lemma TrimKeepsStart(p: string, rest: string)
    requires p != "" && Trimmed(p)
    ensures p <= TrimSpace(p + rest)
  {
    assert (p + rest)[0] == p[0];
    TrimRightKeeps(p, rest);
  }
}
