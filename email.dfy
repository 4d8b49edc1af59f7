/**
  The e-mail pattern of the contact form, ^[^\s@]+@[^\s@]+\.[^\s@]+$, in two
  forms: its meaning as a split of the string into five pieces, and the
  deterministic automaton that decides it one character at a time. The two
  are proved to accept the same strings.
*/
module EmailPattern {
  import opened Text

  /** A character of the class [^\s@]. */
  predicate Plain(c: char) {
    !IsSpace(c) && c != '@'
  }

  predicate AllPlain(s: string) {
    forall k :: 0 <= k < |s| ==> Plain(s[k])
  }

  /** s splits as local part s[..i], '@' at i, host s[i+1..j], '.' at j and
      last part s[j+1..], each of the three parts a non-empty run of [^\s@]. */
  ghost predicate MatchesAt(s: string, i: int, j: int) {
    && 0 < i && i + 1 < j && j + 1 < |s|
    && s[i] == '@' && s[j] == '.'
    && AllPlain(s[..i]) && AllPlain(s[i + 1..j]) && AllPlain(s[j + 1..])
  }

  /** The strings the regular expression matches. */
  ghost predicate Matches(s: string) {
    exists i, j :: MatchesAt(s, i, j)
  }

  /** States of the automaton. */
  datatype State =
    | Start  // nothing read
    | Local  // a non-empty local part
    | At     // the local part and the '@'
    | Host   // ... and a non-empty domain with no '.' after its first character
    | Dot    // ... whose last character is the first such '.'
    | Tld    // ... with a '.' that has a character on each side: accepting
    | Fail   // no continuation can match

  function Step(st: State, c: char): State {
    if IsSpace(c) then Fail
    else match st
      case Start => if c == '@' then Fail else Local
      case Local => if c == '@' then At else Local
      case At => if c == '@' then Fail else Host
      case Host => if c == '@' then Fail else if c == '.' then Dot else Host
      case Dot => if c == '@' then Fail else Tld
      case Tld => if c == '@' then Fail else Tld
      case Fail => Fail
  }

  /** The state after reading all of s. */
  function Run(s: string): State {
    if s == [] then Start else Step(Run(s[..|s| - 1]), s[|s| - 1])
  }

  /** RegExp.prototype.test with the contact form's e-mail pattern. */
  predicate EmailRegexTest(s: string) {
    Run(s) == Tld
  }

  /** The index of the first '@' in s, or |s| if there is none. */
  function AtIndex(s: string): (i: nat)
    ensures i <= |s|
    ensures i < |s| ==> s[i] == '@'
  {
    if s == [] then 0
    else if s[0] == '@' then 0
    else 1 + AtIndex(s[1..])
  }

  /** No '@' comes before AtIndex(s). */
  lemma {:induction false} AtIndexFirst(s: string)
    ensures forall k :: 0 <= k < AtIndex(s) ==> s[k] != '@'
  {
    if s != [] && s[0] != '@' {
      AtIndexFirst(s[1..]);
      forall k | 0 <= k < AtIndex(s) ensures s[k] != '@' {
        if k > 0 { assert s[k] == s[1..][k - 1]; }
      }
    }
  }

  /** An index with an '@' at it (or the end) and none before it is AtIndex. */
  lemma {:induction false} AtIndexUnique(s: string, i: nat)
    requires i <= |s| && (i < |s| ==> s[i] == '@')
    requires forall k :: 0 <= k < i ==> s[k] != '@'
    ensures AtIndex(s) == i
  {
    if s != [] && s[0] != '@' {
      assert forall k :: 0 <= k < i - 1 ==> s[1..][k] != '@' by {
        forall k | 0 <= k < i - 1 ensures s[1..][k] != '@' { assert s[1..][k] == s[k + 1]; }
      }
      AtIndexUnique(s[1..], i - 1);
    }
  }

  /** Some '.' in d has a character on each side. */
  predicate InnerDot(d: string) {
    exists k :: 1 <= k <= |d| - 2 && d[k] == '.'
  }

  /** The state the automaton should be in after reading w, stated on w
      itself rather than on the characters one by one. */
  ghost function Expected(w: string): State {
    var i := AtIndex(w);
    if i == |w| then LocalState(w)
    else if i == 0 || !AllPlain(w[..i]) then Fail
    else DomainState(w[i + 1..])
  }

  /** The expected state while no '@' has been read: w is the local part. */
  function LocalState(w: string): State {
    if w == [] then Start else if AllPlain(w) then Local else Fail
  }

  /** The expected state once a local part and the '@' are read and d is
      what followed the '@'. */
  function DomainState(d: string): State {
    if !AllPlain(d) then Fail
    else if d == [] then At
    else if InnerDot(d) then Tld
    else if |d| >= 2 && d[|d| - 1] == '.' then Dot
    else Host
  }

  lemma InnerDotSnoc(d: string, c: char)
    ensures InnerDot(d + [c]) <==> InnerDot(d) || (|d| >= 2 && d[|d| - 1] == '.')
  {
    var e := d + [c];
    if InnerDot(e) {
      var k :| 1 <= k <= |e| - 2 && e[k] == '.';
      assert e[k] == d[k];
      if k < |d| - 1 { assert InnerDot(d); }
    }
    if InnerDot(d) {
      var k :| 1 <= k <= |d| - 2 && d[k] == '.';
      assert e[k] == d[k];
    }
    if |d| >= 2 && d[|d| - 1] == '.' {
      assert e[|d| - 1] == '.';
    }
  }

  lemma AllPlainSnoc(s: string, c: char)
    ensures AllPlain(s + [c]) <==> AllPlain(s) && Plain(c)
  {
    var e := s + [c];
    if AllPlain(e) {
      assert e[|s|] == c;
      forall k | 0 <= k < |s| ensures Plain(s[k]) { assert s[k] == e[k]; }
    }
  }

  /** Where the first '@' of w + [c] is. */
  lemma AtIndexSnoc(w: string, c: char)
    ensures AtIndex(w + [c]) == if AtIndex(w) < |w| then AtIndex(w) else if c == '@' then |w| else |w| + 1
  {
    var e := w + [c];
    var i := AtIndex(w);
    var i' := if i < |w| then i else if c == '@' then |w| else |w| + 1;
    AtIndexFirst(w);
    assert forall k :: 0 <= k < i' ==> e[k] != '@' by {
      forall k | 0 <= k < i' ensures e[k] != '@' {
        if k < |w| { assert e[k] == w[k]; }
      }
    }
    AtIndexUnique(e, i');
  }

  /** One more domain character moves DomainState as Step does. */
  lemma DomainStep(d: string, c: char)
    ensures DomainState(d + [c]) == Step(DomainState(d), c)
  {
    AllPlainSnoc(d, c);
    if AllPlain(d) && Plain(c) {
      InnerDotSnoc(d, c);
      assert (d + [c])[|d|] == c;
    }
  }

  /** Past the first '@', a new character only extends the domain part. */
  lemma ExpectedSnocAfterAt(w: string, c: char)
    requires AtIndex(w) < |w|
    ensures var i := AtIndex(w);
      Expected(w + [c]) == if i == 0 || !AllPlain(w[..i]) then Fail else DomainState(w[i + 1..] + [c])
  {
    AtIndexSnoc(w, c);
    SnocSlices(w, c, AtIndex(w));
  }

  /** Cutting w + [c] before position i < |w| cuts w. */
  lemma SnocSlices(w: string, c: char, i: nat)
    requires i < |w|
    ensures (w + [c])[..i] == w[..i] && (w + [c])[i + 1..] == w[i + 1..] + [c]
  {
  }

  /** ExpectedStep once w holds an '@'. */
  lemma ExpectedStepAfterAt(w: string, c: char)
    requires AtIndex(w) < |w|
    ensures Expected(w + [c]) == Step(Expected(w), c)
  {
    ExpectedSnocAfterAt(w, c);
    DomainStep(w[AtIndex(w) + 1..], c);
  }

  /** ExpectedStep while w holds no '@'. */
  lemma ExpectedStepBeforeAt(w: string, c: char)
    requires AtIndex(w) == |w|
    ensures Expected(w + [c]) == Step(Expected(w), c)
  {
    var e := w + [c];
    AtIndexSnoc(w, c);
    AllPlainSnoc(w, c);
    if c == '@' {
      assert e[..|w|] == w;
      assert e[|w| + 1..] == [];
    }
  }

  /** Reading one more character moves the expected state as Step does. */
  lemma ExpectedStep(w: string, c: char)
    ensures Expected(w + [c]) == Step(Expected(w), c)
  {
    if AtIndex(w) < |w| {
      ExpectedStepAfterAt(w, c);
    } else {
      ExpectedStepBeforeAt(w, c);
    }
  }

  /** The automaton is always in the expected state. */
  lemma {:induction false} RunIsExpected(w: string)
    ensures Run(w) == Expected(w)
  {
    if w != [] {
      var v := w[..|w| - 1];
      assert w == v + [w[|w| - 1]];
      RunIsExpected(v);
      ExpectedStep(v, w[|w| - 1]);
    }
  }

  /** Pieces of the domain part d = s[i + 1..] are pieces of s. */
  lemma DomainSlices(s: string, i: nat, k: nat)
    requires i + 1 + k < |s|
    ensures s[i + 1..][..k] == s[i + 1..i + 1 + k]
    ensures s[i + 1..][k + 1..] == s[i + 1 + k + 1..]
    ensures s[i + 1..][k] == s[i + 1 + k]
  {
  }

  /** A run of [^\s@] with one more such character inside it. */
  lemma AllPlainAround(d: string, k: nat)
    requires k < |d| && Plain(d[k]) && AllPlain(d[..k]) && AllPlain(d[k + 1..])
    ensures AllPlain(d)
  {
    forall m | 0 <= m < |d| ensures Plain(d[m]) {
      if m < k { assert d[m] == d[..k][m]; }
      else if k < m { assert d[m] == d[k + 1..][m - k - 1]; }
    }
  }

  /** A prefix that is a run of [^\s@] holds no '@'. */
  lemma NoAtBefore(s: string, i: nat)
    requires i <= |s| && AllPlain(s[..i])
    ensures forall k :: 0 <= k < i ==> s[k] != '@'
  {
    forall k | 0 <= k < i ensures s[k] != '@' { assert s[k] == s[..i][k]; }
  }

  /** Accepting: the first '@' and an inner '.' of the domain split s. */
  lemma TldMatches(s: string)
    requires Expected(s) == Tld
    ensures Matches(s)
  {
    var i := AtIndex(s);
    var d := s[i + 1..];
    var k :| 1 <= k <= |d| - 2 && d[k] == '.';
    DomainSlices(s, i, k);
    assert MatchesAt(s, i, i + 1 + k);
  }

  /** A split of s as the pattern reads it brings the automaton to Tld. */
  lemma MatchesTld(s: string, i: nat, j: nat)
    requires MatchesAt(s, i, j)
    ensures Expected(s) == Tld
  {
    NoAtBefore(s, i);
    AtIndexUnique(s, i);
    var d := s[i + 1..];
    var k := j - i - 1;
    DomainSlices(s, i, k);
    AllPlainAround(d, k);
    assert 1 <= k <= |d| - 2 && d[k] == '.';
  }

  /** The automaton accepts exactly the strings the regular expression
      matches. */
  lemma EmailRegexTestCorrect(s: string)
    ensures EmailRegexTest(s) <==> Matches(s)
  {
    RunIsExpected(s);
    if Expected(s) == Tld {
      TldMatches(s);
    }
    if Matches(s) {
      var i, j :| MatchesAt(s, i, j);
      MatchesTld(s, i, j);
    }
  }

  /** Strings the page accepts and rejects, read off the automaton. */
  lemma Accepted()
    ensures EmailRegexTest("a@b.c") && EmailRegexTest("a@b.c.d") && EmailRegexTest("a@.b.c")
  {
    assert Run("a@") == At;
    assert Run("a@b") == Host;
    assert "a@b."[..3] == "a@b";
    assert Run("a@b.") == Dot;
    assert "a@b.c"[..4] == "a@b.";
    assert Run("a@b.c") == Tld;
    assert "a@b.c."[..5] == "a@b.c";
    assert Run("a@b.c.") == Tld;
    assert "a@b.c.d"[..6] == "a@b.c.";
    assert Run("a@b.c.d") == Tld;
    assert Run("a@.") == Host;
    assert "a@.b"[..3] == "a@.";
    assert Run("a@.b") == Host;
    assert "a@.b."[..4] == "a@.b";
    assert Run("a@.b.") == Dot;
    assert "a@.b.c"[..5] == "a@.b.";
    assert Run("a@.b.c") == Tld;
  }

  lemma Rejected()
    ensures !EmailRegexTest("a@b") && !EmailRegexTest("a.b@") && !EmailRegexTest("noatsign")
    ensures !EmailRegexTest("a@@b.c") && !EmailRegexTest("a@b.") && !EmailRegexTest("a b@c.d")
  {
    assert Run("a@") == At;
    assert Run("a@b") == Host;
    assert "a@b."[..3] == "a@b";
    assert Run("a@b.") == Dot;
    assert Run("a.") == Local;
    assert Run("a.b") == Local;
    assert "a.b@"[..3] == "a.b";
    assert Run("a.b@") == At;
    assert Run("no") == Local;
    assert Run("noa") == Local;
    assert "noat"[..3] == "noa";
    assert Run("noat") == Local;
    assert "noats"[..4] == "noat";
    assert Run("noats") == Local;
    assert "noatsi"[..5] == "noats";
    assert Run("noatsi") == Local;
    assert "noatsig"[..6] == "noatsi";
    assert Run("noatsig") == Local;
    assert "noatsign"[..7] == "noatsig";
    assert Run("noatsign") == Local;
    assert Run("a@@") == Fail;
    assert "a@@b"[..3] == "a@@";
    assert Run("a@@b") == Fail;
    assert "a@@b."[..4] == "a@@b";
    assert Run("a@@b.") == Fail;
    assert "a@@b.c"[..5] == "a@@b.";
    assert Run("a@@b.c") == Fail;
    assert Run("a b") == Fail;
    assert "a b@"[..3] == "a b";
    assert Run("a b@") == Fail;
    assert "a b@c"[..4] == "a b@";
    assert Run("a b@c") == Fail;
    assert "a b@c."[..5] == "a b@c";
    assert Run("a b@c.") == Fail;
    assert "a b@c.d"[..6] == "a b@c.";
    assert Run("a b@c.d") == Fail;
  }
}
