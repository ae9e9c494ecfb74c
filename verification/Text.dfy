/** Splitting, joining and trimming of strings, as Go's `strings` package and
    Python's `str` methods do them. */
module Text {

  lemma Snoc<T>(s: seq<T>)
    requires s != []
    ensures s == s[..|s| - 1] + [s[|s| - 1]]
  {
  }

  /** `strings.Split(s, sep)` / `s.split(sep)` for a one-character separator. */
  function Split(s: string, sep: char): (parts: seq<string>)
    ensures |parts| >= 1
    ensures forall p :: p in parts ==> sep !in p
  {
    if s == [] then [[]]
    else
      var rest := Split(s[1..], sep);
      if s[0] == sep then [[]] + rest else [[s[0]] + rest[0]] + rest[1..]
  }

  /** `strings.Join(parts, sep)` for a one-character separator. */
  function Join(parts: seq<string>, sep: char): string {
    if parts == [] then []
    else if |parts| == 1 then parts[0]
    else parts[0] + [sep] + Join(parts[1..], sep)
  }

  lemma {:induction false} JoinOfSplit(s: string, sep: char)
    ensures Join(Split(s, sep), sep) == s
  {
    if s != [] {
      JoinOfSplit(s[1..], sep);
      var rest := Split(s[1..], sep);
      if s[0] == sep {
        assert ([[]] + rest)[1..] == rest;
      } else {
        var parts := [[s[0]] + rest[0]] + rest[1..];
        assert parts == Split(s, sep);
        if |rest| > 1 {
          assert parts[1..] == rest[1..];
        }
      }
    }
  }

  /** A separator-free head followed by the separator is the first part. */
  lemma {:induction false} SplitHead(head: string, tail: string, sep: char)
    requires sep !in head
    ensures Split(head + [sep] + tail, sep) == [head] + Split(tail, sep)
  {
    var s := head + [sep] + tail;
    if head == [] {
      assert s[0] == sep && s[1..] == tail;
    } else {
      assert s[1..] == head[1..] + [sep] + tail;
      SplitHead(head[1..], tail, sep);
      assert s[0] == head[0] && [head[0]] + head[1..] == head;
    }
  }

  lemma {:induction false} SplitWhole(s: string, sep: char)
    requires sep !in s
    ensures Split(s, sep) == [s]
  {
    if s != [] {
      SplitWhole(s[1..], sep);
      assert [s[0]] + s[1..] == s;
    }
  }

  lemma {:induction false} SplitOfJoin(parts: seq<string>, sep: char)
    requires parts != []
    requires forall p :: p in parts ==> sep !in p
    ensures Split(Join(parts, sep), sep) == parts
  {
    if |parts| == 1 {
      SplitWhole(parts[0], sep);
    } else {
      SplitOfJoin(parts[1..], sep);
      SplitHead(parts[0], Join(parts[1..], sep), sep);
      assert parts == [parts[0]] + parts[1..];
    }
  }

  // ---- trimming ----

  /** Go's `unicode.IsSpace`. */
  predicate IsSpace(c: char) {
    || c in {'\t', '\n', '\U{0B}', '\U{0C}', '\r', ' ', '\U{85}', '\U{A0}'}
    || c in {'\U{1680}', '\U{2028}', '\U{2029}', '\U{202F}', '\U{205F}', '\U{3000}'}
    || '\U{2000}' <= c <= '\U{200A}'
  }

  /** By code point: tab to carriage return, space, and the other separators of Unicode. */
  lemma SpaceCodePoints(c: char)
    ensures var n := c as int;
            IsSpace(c) <==> 9 <= n <= 13 || 8192 <= n <= 8202
                            || n in {32, 133, 160, 5760, 8232, 8233, 8239, 8287, 12288}
  {
  }

  predicate Trimmed(s: string) {
    s != [] ==> !IsSpace(s[0]) && !IsSpace(s[|s| - 1])
  }

  function TrimLeft(s: string): string {
    if s != [] && IsSpace(s[0]) then TrimLeft(s[1..]) else s
  }

  function TrimRight(s: string): string {
    if s != [] && IsSpace(s[|s| - 1]) then TrimRight(s[..|s| - 1]) else s
  }

  /** `strings.TrimSpace`. */
  function TrimSpace(s: string): string {
    TrimRight(TrimLeft(s))
  }

  lemma {:induction false} TrimLeftCuts(s: string)
    ensures var t := TrimLeft(s);
            && |t| <= |s| && t == s[|s| - |t|..]
            && (t != [] ==> !IsSpace(t[0]))
            && (forall i :: 0 <= i < |s| - |t| ==> IsSpace(s[i]))
  {
    if s != [] && IsSpace(s[0]) {
      TrimLeftCuts(s[1..]);
      var cut := |s| - |TrimLeft(s)|;
      assert s[1..][cut - 1..] == s[cut..];
      forall i | 0 <= i < cut ensures IsSpace(s[i]) {
        assert i > 0 ==> s[i] == s[1..][i - 1];
      }
    }
  }

  lemma {:induction false} TrimRightCuts(s: string)
    ensures var t := TrimRight(s);
            && t <= s
            && (t != [] ==> !IsSpace(t[|t| - 1]))
            && (forall i :: |t| <= i < |s| ==> IsSpace(s[i]))
  {
    if s != [] && IsSpace(s[|s| - 1]) {
      var n := |s| - 1;
      TrimRightCuts(s[..n]);
      forall i | |TrimRight(s)| <= i <= n ensures IsSpace(s[i]) {
        assert i < n ==> s[i] == s[..n][i];
      }
    }
  }

  /** Trimming takes space off both ends and nothing else: what is left is
      trimmed, is part of the string, and holds everything that is not space. */
  lemma TrimCuts(s: string)
    ensures var t := TrimSpace(s);
            && Trimmed(t)
            && (forall c :: c in t ==> c in s)
            && (forall c :: c in s && !IsSpace(c) ==> c in t)
  {
    TrimLeftCuts(s);
    var l := TrimLeft(s);
    TrimRightCuts(l);
    var t := TrimSpace(s);
    assert t != [] ==> t[0] == l[0];
    forall c | c in s && !IsSpace(c) ensures c in t {
      var i :| 0 <= i < |s| && s[i] == c;
      assert i >= |s| - |l|;
      assert l[i - (|s| - |l|)] == c;
    }
    forall c | c in t ensures c in s {
      var i :| 0 <= i < |t| && t[i] == c;
      assert l[i] == c;
    }
  }

  /** Trimming removes exactly the surrounding space. */
  lemma TrimPadded(left: string, core: string, right: string)
    requires core != [] && Trimmed(core)
    requires forall c :: c in left ==> IsSpace(c)
    requires forall c :: c in right ==> IsSpace(c)
    ensures TrimSpace(left + core + right) == core
  {
    assert left + core + right == left + (core + right);
    assert (core + right)[0] == core[0];
    TrimLeftPadded(left, core + right);
    TrimRightPadded(core, right);
  }

  lemma {:induction false} TrimLeftPadded(pad: string, s: string)
    requires forall c :: c in pad ==> IsSpace(c)
    requires s != [] && !IsSpace(s[0])
    ensures TrimLeft(pad + s) == s
  {
    if pad == [] {
      assert pad + s == s;
    } else {
      assert (pad + s)[1..] == pad[1..] + s;
      TrimLeftPadded(pad[1..], s);
    }
  }

  lemma {:induction false} TrimRightPadded(s: string, pad: string)
    requires forall c :: c in pad ==> IsSpace(c)
    requires s != [] && !IsSpace(s[|s| - 1])
    ensures TrimRight(s + pad) == s
  {
    if pad == [] {
      assert s + pad == s;
    } else {
      assert (s + pad)[..|s + pad| - 1] == s + pad[..|pad| - 1];
      TrimRightPadded(s, pad[..|pad| - 1]);
    }
  }
}
