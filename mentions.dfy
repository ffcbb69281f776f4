/** The mention extractor: `text.scan(/@\w+/)`, the `@` stripped from each
    match, and each handle resolved through `find_by_username`. */
module Mentions {
  import opened Values

  /** `\w` in a Ruby regular expression: an ASCII letter, digit or underscore. */
  predicate IsWordChar(c: char) {
    'a' <= c <= 'z' || 'A' <= c <= 'Z' || '0' <= c <= '9' || c == '_'
  }

  predicate IsWord(w: string) {
    0 < |w| && forall i :: 0 <= i < |w| ==> IsWordChar(w[i])
  }

  /** A match of `/@\w+/`. */
  predicate IsMention(m: string) {
    1 < |m| && m[0] == '@' && IsWord(m[1..])
  }

  /** The length of the longest run of word characters `s` starts with: what the
      greedy `\w+` consumes. */
  function WordRun(s: string): (n: nat)
    ensures n <= |s|
    ensures forall i :: 0 <= i < n ==> IsWordChar(s[i])
    ensures n < |s| ==> !IsWordChar(s[n])
  {
    if s != [] && IsWordChar(s[0]) then 1 + WordRun(s[1..]) else 0
  }

  /** `s.scan(/@\w+/)`: the leftmost match, then the search resumes after it;
      an `@` not followed by a word character matches nothing. */
  function Scan(s: string): (r: seq<string>)
    ensures forall i :: 0 <= i < |r| ==> IsMention(r[i])
    decreases |s|
  {
    if s == [] then []
    else if s[0] == '@' && 1 < |s| && IsWordChar(s[1]) then
      var n := 1 + WordRun(s[1..]);
      assert s[..n][1..] == s[1..][..n - 1];
      [s[..n]] + Scan(s[n..])
    else Scan(s[1..])
  }

  /** Scanning a concatenation scans the two parts separately when the second
      does not start with a word character: no match spans the seam. */
  lemma {:induction false} ScanConcat(x: string, y: string)
    requires y == [] || !IsWordChar(y[0])
    ensures Scan(x + y) == Scan(x) + Scan(y)
    decreases |x|
  {
    if x == [] {
      assert x + y == y;
    } else if x[0] == '@' && 1 < |x| && IsWordChar(x[1]) {
      ScanConcat(x[1 + WordRun(x[1..])..], y);
      ScanConcatMatch(x, y);
    } else {
      ScanConcat(x[1..], y);
      ScanSkip(x, y);
    }
  }

  /** A text starting with a match: the match, then the scan of the rest. */
  lemma ScanFront(x: string)
    requires 1 < |x| && x[0] == '@' && IsWordChar(x[1])
    ensures Scan(x) == [x[..1 + WordRun(x[1..])]] + Scan(x[1 + WordRun(x[1..])..])
  {
  }

  /** One step of ScanConcat: the match at the front of `x` ends inside `x`. */
  lemma ScanConcatMatch(x: string, y: string)
    requires y == [] || !IsWordChar(y[0])
    requires 1 < |x| && x[0] == '@' && IsWordChar(x[1])
    requires var n := 1 + WordRun(x[1..]);
      Scan(x[n..] + y) == Scan(x[n..]) + Scan(y)
    ensures Scan(x + y) == Scan(x) + Scan(y)
  {
    var n := 1 + WordRun(x[1..]);
    ScanFront(x);
    ScanMatchAcross(x, y);
    AppendAssoc([x[..n]], Scan(x[n..]), Scan(y));
  }

  lemma ScanMatchAcross(x: string, y: string)
    requires y == [] || !IsWordChar(y[0])
    requires 1 < |x| && x[0] == '@' && IsWordChar(x[1])
    ensures var n := 1 + WordRun(x[1..]);
      Scan(x + y) == [x[..n]] + Scan(x[n..] + y)
  {
    var s := x + y;
    var n := 1 + WordRun(x[1..]);
    assert 1 + WordRun(s[1..]) == n by {
      assert s[1..] == x[1..] + y;
      WordRunConcat(x[1..], y);
    }
    assert Scan(s) == [s[..n]] + Scan(s[n..]) by {
      assert s[0] == '@' && 1 < |s| && IsWordChar(s[1]);
    }
    assert s[..n] == x[..n] && s[n..] == x[n..] + y;
  }

  // Regrouping kept in its own lemma so the scan proofs that use it stay small for the solver.
  lemma AppendAssoc<T>(a: seq<T>, b: seq<T>, c: seq<T>)
    ensures a + (b + c) == (a + b) + c
  {
  }

  /** One step of ScanConcat: no match starts at the front of `x`. */
  lemma ScanSkip(x: string, y: string)
    requires y == [] || !IsWordChar(y[0])
    requires x != [] && !(x[0] == '@' && 1 < |x| && IsWordChar(x[1]))
    ensures Scan(x) == Scan(x[1..])
    ensures Scan(x + y) == Scan(x[1..] + y)
  {
    var s := x + y;
    assert s[1..] == x[1..] + y;
    assert s[0] == x[0];
    assert 1 < |x| ==> s[1] == x[1];
  }

  lemma {:induction false} WordRunConcat(x: string, y: string)
    requires y == [] || !IsWordChar(y[0])
    ensures WordRun(x + y) == WordRun(x)
    decreases |x|
  {
    if x == [] {
      assert x + y == y;
    } else {
      assert (x + y)[1..] == x[1..] + y;
      WordRunConcat(x[1..], y);
    }
  }

  /** `@` followed by a whole word is one match. */
  lemma ScanOneMention(w: string)
    requires IsWord(w)
    ensures Scan("@" + w) == ["@" + w]
  {
    var s := "@" + w;
    assert s[1..] == w;
    assert WordRun(w) == |w| by {
      WordRunWhole(w);
      assert w + [] == w;
    }
    assert s[..|s|] == s;
    assert Scan(s) == [s] + Scan(s[|s|..]);
    assert s[|s|..] == [];
  }

  lemma {:induction false} WordRunWhole(w: string)
    requires forall i :: 0 <= i < |w| ==> IsWordChar(w[i])
    ensures WordRun(w + []) == |w|
    decreases |w|
  {
    assert w + [] == w;
    if w != [] {
      WordRunWhole(w[1..]);
      assert w[1..] + [] == w[1..];
    }
  }

  /** A text without `@` mentions nobody. */
  lemma {:induction false} ScanWithoutAt(s: string)
    requires forall i :: 0 <= i < |s| ==> s[i] != '@'
    ensures Scan(s) == []
    decreases |s|
  {
    if s != [] {
      ScanWithoutAt(s[1..]);
    }
  }

  /** `mention[1..-1]` of every match: the handles, in order, duplicates kept. */
  function Handles(text: string): (hs: seq<string>)
    ensures |hs| == |Scan(text)|
    ensures forall i :: 0 <= i < |hs| ==>
      && hs[i] == Scan(text)[i][1..] && "@" + hs[i] == Scan(text)[i] && IsWord(hs[i])
  {
    var ms := Scan(text);
    seq(|ms|, i requires 0 <= i < |ms| => ms[i][1..])
  }

  /** The ids of the users the handles resolve to, in order; `usernames` maps
      each handle `find_by_username` finds to that user's id, and a handle it
      does not find contributes nothing. */
  function Resolve(handles: seq<string>, usernames: map<string, Value>): (ids: seq<Value>)
    ensures |ids| <= |handles|
    ensures forall i :: 0 <= i < |ids| ==> ids[i] in usernames.Values
    decreases |handles|
  {
    if handles == [] then []
    else
      var h := handles[|handles| - 1];
      Resolve(handles[..|handles| - 1], usernames) + (if h in usernames then [usernames[h]] else [])
  }

  lemma {:induction false} ResolveAppend(a: seq<string>, b: seq<string>, usernames: map<string, Value>)
    ensures Resolve(a + b, usernames) == Resolve(a, usernames) + Resolve(b, usernames)
    decreases |b|
  {
    if b == [] {
      assert a + b == a;
    } else {
      assert (a + b)[..|a + b| - 1] == a + b[..|b| - 1];
      ResolveAppend(a, b[..|b| - 1], usernames);
    }
  }

  /** Handles nobody has are skipped: they yield no id at all. */
  lemma {:induction false} ResolveUnknown(handles: seq<string>, usernames: map<string, Value>)
    requires forall i :: 0 <= i < |handles| ==> handles[i] !in usernames
    ensures Resolve(handles, usernames) == []
    decreases |handles|
  {
    if handles != [] {
      ResolveUnknown(handles[..|handles| - 1], usernames);
    }
  }

  /** Text without `@`, then `@word`, then text that does not continue the
      word: the scan finds that one match, then scans the rest. */
  lemma ScanAround(p: string, w: string, y: string)
    requires forall i :: 0 <= i < |p| ==> p[i] != '@'
    requires IsWord(w)
    requires y == [] || !IsWordChar(y[0])
    ensures Scan(p + "@" + w + y) == ["@" + w] + Scan(y)
  {
    ScanMentionThen(w, y);
    ScanPlainThen(p, ("@" + w) + y);
    AroundText(p, w, y);
  }

  lemma ScanMentionThen(w: string, y: string)
    requires IsWord(w)
    requires y == [] || !IsWordChar(y[0])
    ensures Scan(("@" + w) + y) == ["@" + w] + Scan(y)
  {
    ScanOneMention(w);
    ScanConcat("@" + w, y);
  }

  /** Text without `@` in front of a text starting with `@` adds no match. */
  lemma ScanPlainThen(p: string, z: string)
    requires forall i :: 0 <= i < |p| ==> p[i] != '@'
    requires z != [] && z[0] == '@'
    ensures Scan(p + z) == Scan(z)
  {
    ScanWithoutAt(p);
    ScanConcat(p, z);
    assert [] + Scan(z) == Scan(z);
  }

  // Regrouping kept in its own lemma so the scan proofs that use it stay small for the solver.
  lemma AroundText(p: string, w: string, y: string)
    ensures p + "@" + w + y == p + (("@" + w) + y)
  {
  }

  /** Plain text before each mention, no text after the last, where the gaps
      between mentions do not continue a word. */
  predicate Gap(p: string) {
    0 < |p| && !IsWordChar(p[0]) && forall i :: 0 <= i < |p| ==> p[i] != '@'
  }

  /** The shape of `"hello @alice and @bob, cc @alice"`: the handles come out in
      text order with the repeated one kept; every known handle yields its
      user's id, and an unknown one is skipped without disturbing the others. */
  lemma ThreeMentions(p1: string, a: string, p2: string, b: string, p3: string, usernames: map<string, Value>)
    requires forall i :: 0 <= i < |p1| ==> p1[i] != '@'
    requires Gap(p2) && Gap(p3) && IsWord(a) && IsWord(b)
    ensures Handles(p1 + "@" + a + p2 + "@" + b + p3 + "@" + a) == [a, b, a]
    ensures a in usernames && b in usernames ==>
      Resolve([a, b, a], usernames) == [usernames[a], usernames[b], usernames[a]]
    ensures a !in usernames && b in usernames ==> Resolve([a, b, a], usernames) == [usernames[b]]
  {
    ResolveThree(a, b, usernames);
    ScanThree(p1, a, p2, b, p3);
    var s1 := p1 + "@" + a + p2 + "@" + b + p3 + "@" + a;
    var hs := Handles(s1);
    assert hs[0] == ("@" + hs[0])[1..] == ("@" + a)[1..] == a;
    assert hs[1] == ("@" + hs[1])[1..] == ("@" + b)[1..] == b;
    assert hs[2] == ("@" + hs[2])[1..] == ("@" + a)[1..] == a;
  }

  lemma ScanThree(p1: string, a: string, p2: string, b: string, p3: string)
    requires forall i :: 0 <= i < |p1| ==> p1[i] != '@'
    requires Gap(p2) && Gap(p3) && IsWord(a) && IsWord(b)
    ensures Scan(p1 + "@" + a + p2 + "@" + b + p3 + "@" + a) == ["@" + a, "@" + b, "@" + a]
  {
    var s2 := p2 + "@" + b + (p3 + "@" + a);
    ScanTwo(p2, b, p3, a);
    ScanAround(p1, a, s2);
    ThreeText(p1, a, p2, b, p3);
  }

  lemma ScanTwo(p2: string, b: string, p3: string, a: string)
    requires Gap(p2) && Gap(p3) && IsWord(a) && IsWord(b)
    ensures Scan(p2 + "@" + b + (p3 + "@" + a)) == ["@" + b, "@" + a]
  {
    var e: string := [];
    assert p3 + "@" + a + e == p3 + "@" + a;
    ScanAround(p3, a, e);
    assert Scan(e) == [];
    ScanAround(p2, b, p3 + "@" + a);
  }

  // Regrouping kept in its own lemma so the scan proofs that use it stay small for the solver.
  lemma ThreeText(p1: string, a: string, p2: string, b: string, p3: string)
    ensures p1 + "@" + a + p2 + "@" + b + p3 + "@" + a
         == p1 + "@" + a + (p2 + "@" + b + (p3 + "@" + a))
  {
  }

  lemma ResolveThree(a: string, b: string, usernames: map<string, Value>)
    ensures var one := Resolve([a], usernames);
      && Resolve([a, b, a], usernames) == one + Resolve([b], usernames) + one
      && one == (if a in usernames then [usernames[a]] else [])
  {
    assert [a, b, a] == [a] + [b] + [a];
    ResolveAppend([a] + [b], [a], usernames);
    ResolveAppend([a], [b], usernames);
    assert [a][..0] == [];
  }
}
