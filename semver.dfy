/**
 * ClientSemVer (cmd/main.go): the build's version string matched against
 * `(v[0-9]+\.[0-9]+\.[0-9]+).*`, written here as a scanner.
 */
module SemVer {
  import opened Wrappers
  import opened Text

  /** `v`, a digit run, `.` at d1, a digit run, `.` at d2, a digit run. */
  predicate CoreShape(t: string, d1: int, d2: int) {
    1 < d1 && d1 + 1 < d2 && d2 + 1 < |t| && t[0] == 'v' && t[d1] == '.' && t[d2] == '.'
    && AllDigits(t[1..d1]) && AllDigits(t[d1 + 1..d2]) && AllDigits(t[d2 + 1..])
  }

  /** The numeric part of a version: `v[0-9]+\.[0-9]+\.[0-9]+`. */
  ghost predicate IsCore(t: string) {
    exists d1, d2 :: CoreShape(t, d1, d2)
  }

  /** Where the core starting at s[i] ends, taking every digit run whole; None when none starts there. */
  function CoreEnd(s: string, i: nat): (r: Option<nat>)
    requires i <= |s|
    ensures r.Some? ==> i < r.value <= |s|
  {
    if i < |s| && s[i] == 'v' then
      var a := i + 1;
      var n1 := DigitRun(s, a);
      if n1 == 0 || a + n1 >= |s| || s[a + n1] != '.' then None
      else
        var b := a + n1 + 1;
        var n2 := DigitRun(s, b);
        if n2 == 0 || b + n2 >= |s| || s[b + n2] != '.' then None
        else
          var c := b + n2 + 1;
          var n3 := DigitRun(s, c);
          if n3 == 0 then None else Some(c + n3)
    else None
  }

  /** The first position at or after i where a core starts. */
  function FindCore(s: string, i: nat): (r: Option<nat>)
    requires i <= |s|
    ensures r.Some? ==> i <= r.value < |s| && CoreEnd(s, r.value).Some?
    ensures r.Some? ==> forall p :: i <= p < r.value ==> CoreEnd(s, p).None?
    ensures r.None? ==> forall p :: i <= p <= |s| ==> CoreEnd(s, p).None?
    decreases |s| - i
  {
    if CoreEnd(s, i).Some? then Some(i)
    else if i == |s| then None
    else FindCore(s, i + 1)
  }

  /** Where `.*` stops: the first newline at or after i, or the end. */
  function LineEnd(s: string, i: nat): (e: nat)
    requires i <= |s|
    ensures i <= e <= |s| && (e == |s| || s[e] == '\n')
    ensures forall k :: i <= k < e ==> s[k] != '\n'
    decreases |s| - i
  {
    if i == |s| || s[i] == '\n' then i else LineEnd(s, i + 1)
  }

  /**
   * ClientSemVer: (whole match, numeric part), or the fatal "not valid" error when the
   * build's version has no core anywhere.
   */
  function ClientSemVer(semVer: string): Result<(string, string), string> {
    match FindCore(semVer, 0)
    case None => Err("the semver in the current build is not valid: " + semVer)
    case Some(start) =>
      var coreEnd := CoreEnd(semVer, start).value;
      var lineEnd := LineEnd(semVer, start);
      DigitsHaveNoNewline(semVer, start, coreEnd, lineEnd);
      Ok((semVer[start..lineEnd], semVer[start..coreEnd]))
  }

  /** The core never crosses a newline, so the whole match reaches at least its end. */
  lemma DigitsHaveNoNewline(s: string, start: nat, coreEnd: nat, lineEnd: nat)
    requires start <= |s| && CoreEnd(s, start) == Some(coreEnd) && lineEnd == LineEnd(s, start)
    ensures coreEnd <= lineEnd
  {
    CoreEndSound(s, start);
    CoreHasNoNewline(s[start..coreEnd]);
    assert forall k :: start <= k < coreEnd ==> s[k] == s[start..coreEnd][k - start];
  }

  /** A core is made of 'v', digits and dots only. */
  lemma CoreHasNoNewline(t: string)
    requires IsCore(t)
    ensures forall j :: 0 <= j < |t| ==> t[j] != '\n'
  {
    var d1, d2 :| CoreShape(t, d1, d2);
    forall j | 0 <= j < |t|
      ensures t[j] != '\n'
    {
      if 1 <= j < d1 {
        assert t[1..d1][j - 1] == t[j];
      } else if d1 < j < d2 {
        assert t[d1 + 1..d2][j - d1 - 1] == t[j];
      } else if d2 < j {
        assert t[d2 + 1..][j - d2 - 1] == t[j];
      }
    }
  }

  /** The three digit runs CoreEnd found, and the separators around them. */
  lemma CoreEndParts(s: string, i: nat) returns (n1: nat, n2: nat, n3: nat)
    requires i <= |s| && CoreEnd(s, i).Some?
    ensures n1 == DigitRun(s, i + 1) && n2 == DigitRun(s, i + n1 + 2) && n3 == DigitRun(s, i + n1 + n2 + 3)
    ensures n1 > 0 && n2 > 0 && n3 > 0
    ensures i + n1 + n2 + 2 < |s| && s[i] == 'v' && s[i + n1 + 1] == '.' && s[i + n1 + n2 + 2] == '.'
    ensures CoreEnd(s, i).value == i + n1 + n2 + 3 + n3
  {
    n1 := DigitRun(s, i + 1);
    n2 := DigitRun(s, i + n1 + 2);
    n3 := DigitRun(s, i + n1 + n2 + 3);
  }

  /** What CoreEnd finds is a core, and the digits after it are all taken. */
  lemma CoreEndSound(s: string, i: nat)
    requires i <= |s| && CoreEnd(s, i).Some?
    ensures IsCore(s[i..CoreEnd(s, i).value])
    ensures CoreEnd(s, i).value == |s| || !IsDigit(s[CoreEnd(s, i).value])
  {
    var n1, n2, n3 := CoreEndParts(s, i);
    DigitRunSpec(s, i + 1);
    DigitRunSpec(s, i + n1 + 2);
    DigitRunSpec(s, i + n1 + n2 + 3);
    ShapeOfSlice(s, i, i + n1 + 1, i + n1 + n2 + 2, i + n1 + n2 + 3 + n3);
  }

  /** The core laid out in s itself is a core once cut out of s. */
  lemma ShapeOfSlice(s: string, i: nat, p: nat, q: nat, e: nat)
    requires i + 1 < p && p + 1 < q && q + 1 < e <= |s|
    requires s[i] == 'v' && s[p] == '.' && s[q] == '.'
    requires AllDigits(s[i + 1..p]) && AllDigits(s[p + 1..q]) && AllDigits(s[q + 1..e])
    ensures CoreShape(s[i..e], p - i, q - i)
  {
    var t := s[i..e];
    SliceOfSlice(s, i, e, 1, p - i);
    SliceOfSlice(s, i, e, p - i + 1, q - i);
    SliceOfSlice(s, i, e, q - i + 1, e - i);
    assert t[q - i + 1..] == t[q - i + 1..e - i];
    assert t[0] == s[i] && t[p - i] == s[p] && t[q - i] == s[q];
  }

  /** Wherever some core starts at i, CoreEnd finds one there. */
  lemma CoreEndComplete(s: string, i: nat, e: nat)
    requires i <= e <= |s| && IsCore(s[i..e])
    ensures CoreEnd(s, i).Some?
  {
    var t := s[i..e];
    var d1, d2 :| CoreShape(t, d1, d2);
    SliceOfSlice(s, i, e, 1, d1);
    SliceOfSlice(s, i, e, d1 + 1, d2);
    SliceOfSlice(s, i, e, d2 + 1, e - i);
    assert s[i] == t[0] && s[i + d1] == t[d1] && s[i + d2] == t[d2];
    CoreAt(s, i, i + d1, i + d2, e);
  }

  /** The core laid out in s itself: 'v' at i, dots at p and q, digits in between and up to e. */
  lemma CoreAt(s: string, i: nat, p: nat, q: nat, e: nat)
    requires i + 1 < p && p + 1 < q && q + 1 < e <= |s|
    requires s[i] == 'v' && s[p] == '.' && s[q] == '.'
    requires AllDigits(s[i + 1..p]) && AllDigits(s[p + 1..q]) && AllDigits(s[q + 1..e])
    ensures CoreEnd(s, i).Some?
  {
    RunExactly(s, i + 1, p - i - 1);
    RunExactly(s, p + 1, q - p - 1);
    RunAtLeast(s, q + 1, e - q - 1);
  }

  lemma SliceOfSlice(s: string, i: nat, e: nat, a: nat, b: nat)
    requires i <= e <= |s| && a <= b <= e - i
    ensures s[i..e][a..b] == s[i + a..i + b]
  {
    assert forall j :: 0 <= j < b - a ==> s[i..e][a..b][j] == s[i + a..i + b][j];
  }

  /** A run of k digits at i means DigitRun is at least k. */
  lemma {:induction false} RunAtLeast(s: string, i: nat, k: nat)
    requires i + k <= |s| && AllDigits(s[i..i + k])
    ensures DigitRun(s, i) >= k
    decreases k
  {
    if k > 0 {
      assert IsDigit(s[i..i + k][0]);
      assert s[i + 1..i + k] == s[i..i + k][1..];
      RunAtLeast(s, i + 1, k - 1);
    }
  }

  /** A run of k digits at i followed by a non-digit has length exactly k. */
  lemma {:induction false} RunExactly(s: string, i: nat, k: nat)
    requires i + k < |s| && AllDigits(s[i..i + k]) && !IsDigit(s[i + k])
    ensures DigitRun(s, i) == k
    decreases k
  {
    if k > 0 {
      assert IsDigit(s[i..i + k][0]);
      assert s[i + 1..i + k] == s[i..i + k][1..];
      RunExactly(s, i + 1, k - 1);
    }
  }

  /** The numeric part is a core and begins the whole match, which stays on one line. */
  lemma ClientSemVerShape(semVer: string)
    ensures ClientSemVer(semVer).Ok? ==>
      var full, core := ClientSemVer(semVer).value.0, ClientSemVer(semVer).value.1;
      IsCore(core) && core <= full && '\n' !in full
  {
    if ClientSemVer(semVer).Ok? {
      var start := FindCore(semVer, 0).value;
      MatchOf(semVer, start);
      DigitsHaveNoNewline(semVer, start, CoreEnd(semVer, start).value, LineEnd(semVer, start));
      CoreEndSound(semVer, start);
    }
  }

  /**
   * Where the match sits: at the leftmost position any core starts, with its last digit
   * run taken whole and the whole match running to the end of that line.
   */
  lemma ClientSemVerPlace(semVer: string)
    ensures ClientSemVer(semVer).Ok? ==>
      var start := FindCore(semVer, 0).value;
      var full, core := ClientSemVer(semVer).value.0, ClientSemVer(semVer).value.1;
      && start + |full| <= |semVer| && semVer[start..start + |full|] == full
      && (start + |core| == |semVer| || !IsDigit(semVer[start + |core|]))
      && (start + |full| == |semVer| || semVer[start + |full|] == '\n')
      && forall p, e :: 0 <= p < start && p <= e <= |semVer| ==> !IsCore(semVer[p..e])
  {
    if ClientSemVer(semVer).Ok? {
      var start := FindCore(semVer, 0).value;
      MatchOf(semVer, start);
      CoreEndSound(semVer, start);
      NoCoreBefore(semVer, start);
    }
  }

  /** The match read off the positions FindCore, CoreEnd and LineEnd give. */
  lemma MatchOf(semVer: string, start: nat)
    requires FindCore(semVer, 0) == Some(start)
    ensures CoreEnd(semVer, start).value <= LineEnd(semVer, start)
    ensures ClientSemVer(semVer) == Ok((semVer[start..LineEnd(semVer, start)], semVer[start..CoreEnd(semVer, start).value]))
  {
    DigitsHaveNoNewline(semVer, start, CoreEnd(semVer, start).value, LineEnd(semVer, start));
  }

  /** No core starts before the first position FindCore reports. */
  lemma NoCoreBefore(s: string, start: nat)
    requires FindCore(s, 0) == Some(start)
    ensures forall p, e :: 0 <= p < start && p <= e <= |s| ==> !IsCore(s[p..e])
  {
    forall p, e | 0 <= p < start && p <= e <= |s|
      ensures !IsCore(s[p..e])
    {
      if IsCore(s[p..e]) {
        CoreEndComplete(s, p, e);
      }
    }
  }

  /** The fatal error happens exactly when no core occurs anywhere in the version string. */
  lemma ClientSemVerFails(semVer: string)
    ensures ClientSemVer(semVer).Err? <==> forall p, e :: 0 <= p <= e <= |semVer| ==> !IsCore(semVer[p..e])
  {
    if ClientSemVer(semVer).Err? {
      forall p, e | 0 <= p <= e <= |semVer|
        ensures !IsCore(semVer[p..e])
      {
        if IsCore(semVer[p..e]) {
          CoreEndComplete(semVer, p, e);
        }
      }
    } else {
      var start := FindCore(semVer, 0).value;
      CoreEndSound(semVer, start);
    }
  }

  /** The example in the source's own comment. */
  lemma ClientSemVerExample()
    ensures ClientSemVer("v0.1.1-cacert") == Ok(("v0.1.1-cacert", "v0.1.1"))
  {
    var s := "v0.1.1-cacert";
    assert s[0] == 'v' && s[2] == '.' && s[4] == '.';
    assert DigitRun(s, 6) == 0 by { assert !IsDigit(s[6]); }
    assert DigitRun(s, 5) == 1;
    assert DigitRun(s, 4) == 0 by { assert !IsDigit(s[4]); }
    assert DigitRun(s, 3) == 1;
    assert DigitRun(s, 2) == 0 by { assert !IsDigit(s[2]); }
    assert DigitRun(s, 1) == 1;
    assert CoreEnd(s, 0) == Some(6);
    assert FindCore(s, 0) == Some(0);
    assert LineEnd(s, 0) == |s|;
    assert s[0..6] == "v0.1.1";
    assert s[0..|s|] == s;
    assert ClientSemVer(s) == Ok((s[0..|s|], s[0..6]));
  }
}
