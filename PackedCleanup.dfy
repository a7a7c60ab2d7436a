/**
 * The textual clean-up of the packed workflow file: two in-place `sed`
 * substitutions run one after the other over the whole file,
 * `s/\([^ ]*\)\.cwl/\1/g` and then `s/#main/#<wf_id>/g`.
 *
 * sed sees one line at a time, so a match of `[^ ]*` never crosses a line
 * end; on the whole text this is the same as a run of non-space characters
 * that also stops at `'\n'`.
 */
module PackedCleanup {
  import opened Wrappers
  import opened Text
  import opened Config

  /** The characters that end a run of `[^ ]*`: a space, or the end of the line. */
  predicate IsBreak(c: char) {
    c == ' ' || c == '\n'
  }

  /** The length of the leading run of `s` that `[^ ]*` can cover. */
  function RunEnd(s: string): (n: nat)
    ensures n <= |s|
    ensures n < |s| ==> IsBreak(s[n])
    ensures forall m :: 0 <= m < n ==> !IsBreak(s[m])
  {
    if s == [] || IsBreak(s[0]) then 0 else 1 + RunEnd(s[1..])
  }

  /** An occurrence of `.cwl` ends just before index `e`. */
  predicate CwlEndsAt(s: string, e: int) {
    OccursAt(s, ".cwl", e - 4)
  }

  /** The largest `e <= hi` at which an occurrence of `.cwl` ends. */
  function LastCwlEnd(s: string, hi: nat): (r: Option<nat>)
    requires hi <= |s|
    ensures r.Some? ==> r.value <= hi && CwlEndsAt(s, r.value)
    ensures r.Some? ==> forall e :: r.value < e <= hi ==> !CwlEndsAt(s, e)
    ensures r.None? ==> forall e :: e <= hi ==> !CwlEndsAt(s, e)
  {
    if hi < 4 then None
    else if s[hi - 4..hi] == ".cwl" then Some(hi)
    else
      assert !CwlEndsAt(s, hi);
      LastCwlEnd(s, hi - 1)
  }

  /** `[^ ]*\.cwl` matches exactly the text `s[..e]`. */
  predicate MatchesPrefix(s: string, e: int) {
    CwlEndsAt(s, e) && forall m :: 0 <= m < e - 4 ==> !IsBreak(s[m])
  }

  /** The end of the longest match of `[^ ]*\.cwl` at the start of `s` (POSIX leftmost-longest). */
  function LongestMatch(s: string): (r: Option<nat>)
    ensures r.Some? ==> 4 <= r.value <= |s|
  {
    LastCwlEnd(s, RunEnd(s))
  }

  /**
   * `LongestMatch` finds a match exactly when `[^ ]*\.cwl` matches at the start
   * of `s`, and then the longest one.
   */
  lemma LongestMatchSpec(s: string)
    ensures LongestMatch(s).None? <==> forall e :: !MatchesPrefix(s, e)
    ensures LongestMatch(s).Some? ==> MatchesPrefix(s, LongestMatch(s).value)
    ensures LongestMatch(s).Some? ==> forall e :: MatchesPrefix(s, e) ==> e <= LongestMatch(s).value
  {
    forall e | MatchesPrefix(s, e) ensures e <= RunEnd(s) {
      CwlNoBreak(s, e);
      RunEndAtLeast(s, e);
    }
    if LongestMatch(s).Some? {
      assert MatchesPrefix(s, LongestMatch(s).value);
    }
  }

  lemma CwlNoBreak(s: string, e: int)
    requires CwlEndsAt(s, e)
    ensures forall m :: e - 4 <= m < e ==> !IsBreak(s[m])
  {
    forall m | e - 4 <= m < e ensures !IsBreak(s[m]) {
      assert s[m] == s[e - 4..e][m - (e - 4)];
    }
  }

  lemma RunEndAtLeast(s: string, e: nat)
    requires e <= |s| && forall m :: 0 <= m < e ==> !IsBreak(s[m])
    ensures e <= RunEnd(s)
  {
  }

  /**
   * sed `s/\([^ ]*\)\.cwl/\1/g`: at each position the longest match, if any,
   * is replaced by the text before its `.cwl` and the scan resumes after it;
   * otherwise one character is copied.
   */
  function StripCwl(s: string): string
    decreases |s|
  {
    match LongestMatch(s)
    case Some(e) => s[..e - 4] + StripCwl(s[e..])
    case None => if s == [] then [] else [s[0]] + StripCwl(s[1..])
  }

  /** `run` with its last `.cwl` deleted; unchanged when it has none. */
  function DropLastCwl(run: string): string {
    match LastCwlEnd(run, |run|)
    case Some(e) => run[..e - 4] + run[e..]
    case None => run
  }

  /** Reference: every maximal run between breaks loses its last `.cwl`; breaks are kept. */
  function StripRuns(s: string): string
    decreases |s|
  {
    var n := RunEnd(s);
    if n == |s| then DropLastCwl(s) else DropLastCwl(s[..n]) + [s[n]] + StripRuns(s[n + 1..])
  }

  lemma ShiftCwlEnd(s: string, d: nat, e: int)
    requires d <= |s| && CwlEndsAt(s[d..], e)
    ensures CwlEndsAt(s, d + e)
  {
    assert s[d..][e - 4..e] == s[d + e - 4..d + e];
  }

  lemma {:induction false} RunEndShift(s: string, d: nat)
    requires d <= RunEnd(s)
    ensures RunEnd(s[d..]) == RunEnd(s) - d
    decreases d
  {
    if d > 0 {
      RunEndShift(s[1..], d - 1);
      assert s[1..][d - 1..] == s[d..];
    }
  }

  lemma {:induction false} LastCwlEndPrefix(s: string, n: nat, hi: nat)
    requires hi <= n <= |s|
    ensures LastCwlEnd(s[..n], hi) == LastCwlEnd(s, hi)
    decreases hi
  {
    if hi >= 4 {
      assert s[..n][hi - 4..hi] == s[hi - 4..hi];
      LastCwlEndPrefix(s, n, hi - 1);
    }
  }

  /** A run with no `.cwl` in it is copied unchanged. */
  lemma {:induction false} CopyRun(s: string)
    requires forall e :: e <= RunEnd(s) ==> !CwlEndsAt(s, e)
    ensures StripCwl(s) == s[..RunEnd(s)] + StripCwl(s[RunEnd(s)..])
    decreases |s|
  {
    var n := RunEnd(s);
    if n > 0 {
      assert LongestMatch(s).None?;
      RunEndShift(s, 1);
      forall e | e <= RunEnd(s[1..]) ensures !CwlEndsAt(s[1..], e) {
        if CwlEndsAt(s[1..], e) {
          ShiftCwlEnd(s, 1, e);
        }
      }
      CopyRun(s[1..]);
      assert s[1..][RunEnd(s[1..])..] == s[n..];
      assert [s[0]] + s[1..][..n - 1] == s[..n];
    }
  }

  /** A run whose last `.cwl` ends at `e`: the text before it is kept and the rest of the run copied. */
  lemma RunStepMatch(s: string, e: nat)
    requires LastCwlEnd(s, RunEnd(s)) == Some(e)
    ensures StripCwl(s) == (s[..e - 4] + s[e..RunEnd(s)]) + StripCwl(s[RunEnd(s)..])
  {
    var n := RunEnd(s);
    assert StripCwl(s) == s[..e - 4] + StripCwl(s[e..]);
    RestOfRun(s, e);
    assert s[..e - 4] + (s[e..n] + StripCwl(s[n..])) == (s[..e - 4] + s[e..n]) + StripCwl(s[n..]);
  }

  /** After the last `.cwl` of the run, the rest of the run is copied. */
  lemma RestOfRun(s: string, e: nat)
    requires LastCwlEnd(s, RunEnd(s)) == Some(e)
    ensures StripCwl(s[e..]) == s[e..RunEnd(s)] + StripCwl(s[RunEnd(s)..])
  {
    var n := RunEnd(s);
    var rest := s[e..];
    RunEndShift(s, e);
    forall e' | e' <= RunEnd(rest) ensures !CwlEndsAt(rest, e') {
      if CwlEndsAt(rest, e') {
        ShiftCwlEnd(s, e, e');
      }
    }
    CopyRun(rest);
    assert rest[..n - e] == s[e..n];
    assert rest[n - e..] == s[n..];
  }

  /** One run of the line: it comes out with its last `.cwl` deleted. */
  lemma RunStep(s: string)
    ensures StripCwl(s) == DropLastCwl(s[..RunEnd(s)]) + StripCwl(s[RunEnd(s)..])
  {
    var r := LastCwlEnd(s, RunEnd(s));
    if r.Some? {
      RunStepSome(s, r.value);
    } else {
      RunStepNone(s);
    }
  }

  lemma RunStepSome(s: string, e: nat)
    requires LastCwlEnd(s, RunEnd(s)) == Some(e)
    ensures StripCwl(s) == DropLastCwl(s[..RunEnd(s)]) + StripCwl(s[RunEnd(s)..])
  {
    LastCwlEndPrefix(s, RunEnd(s), RunEnd(s));
    DropLastCwlRun(s, e);
    RunStepMatch(s, e);
  }

  lemma RunStepNone(s: string)
    requires LastCwlEnd(s, RunEnd(s)).None?
    ensures StripCwl(s) == DropLastCwl(s[..RunEnd(s)]) + StripCwl(s[RunEnd(s)..])
  {
    var n := RunEnd(s);
    LastCwlEndPrefix(s, n, n);
    assert DropLastCwl(s[..n]) == s[..n];
    CopyRun(s);
  }

  lemma DropLastCwlRun(s: string, e: nat)
    requires LastCwlEnd(s, RunEnd(s)) == Some(e)
    requires LastCwlEnd(s[..RunEnd(s)], RunEnd(s)) == LastCwlEnd(s, RunEnd(s))
    ensures DropLastCwl(s[..RunEnd(s)]) == s[..e - 4] + s[e..RunEnd(s)]
  {
    var n := RunEnd(s);
    assert |s[..n]| == n;
    assert s[..n][e..] == s[e..n];
    assert s[..n][..e - 4] == s[..e - 4];
  }

  /**
   * The sed rewrite deletes the last `.cwl` of every maximal run of characters
   * other than space and line end, and changes nothing else.
   */
  lemma {:induction false} StripCwlByRuns(s: string)
    ensures StripCwl(s) == StripRuns(s)
    decreases |s|
  {
    var n := RunEnd(s);
    RunStep(s);
    if n == |s| {
      assert s[..n] == s;
    } else {
      var rest := s[n..];
      assert LongestMatch(rest).None?;
      assert rest[1..] == s[n + 1..];
      StripCwlByRuns(s[n + 1..]);
    }
  }

  /** Text without `.cwl` is left unchanged. */
  lemma {:induction false} StripCwlNoCwl(s: string)
    requires !Contains(s, ".cwl")
    ensures StripCwl(s) == s
    decreases |s|
  {
    ContainsSpec(s, ".cwl");
    if s != [] {
      assert LongestMatch(s).None?;
      forall i | OccursAt(s[1..], ".cwl", i) ensures false {
        ShiftCwlEnd(s, 1, i + 4);
      }
      ContainsSpec(s[1..], ".cwl");
      StripCwlNoCwl(s[1..]);
    }
  }

  /** Text that never holds the first character of `pat` holds no `pat`. */
  lemma AbsentFirst(s: string, pat: string)
    requires pat != []
    requires forall m :: 0 <= m < |s| ==> s[m] != pat[0]
    ensures !Contains(s, pat)
  {
    ContainsSpec(s, pat);
    forall i ensures !OccursAt(s, pat, i) {
      if 0 <= i && i + |pat| <= |s| {
        assert s[i..i + |pat|][0] == s[i];
      }
    }
  }

  /** A single space-free token ending in `.cwl` loses exactly that suffix. */
  lemma StripCwlToken(w: string)
    requires |w| >= 4 && w[|w| - 4..] == ".cwl"
    requires forall m :: 0 <= m < |w| ==> !IsBreak(w[m])
    ensures StripCwl(w) == w[..|w| - 4]
  {
    RunsOfSuffixToken(w);
    StripCwlByRuns(w);
  }

  /** The `run` reference the generator writes for a step (space-free parts) loses its `.cwl`. */
  lemma StripRunPath(cliDir: string, id: string)
    requires forall m :: 0 <= m < |cliDir| ==> !IsBreak(cliDir[m])
    requires forall m :: 0 <= m < |id| ==> !IsBreak(id[m])
    ensures StripCwl(RunPath(cliDir, id)) == cliDir + "/" + id + "/" + id
  {
    var w := RunPath(cliDir, id);
    var stem := cliDir + "/" + id + "/" + id;
    assert w == stem + ".cwl";
    forall m | 0 <= m < |w| ensures !IsBreak(w[m]) {
      if m < |cliDir| {
        assert w[m] == cliDir[m];
      } else if m == |cliDir| || m == |cliDir| + 1 + |id| {
        assert w[m] == '/';
      } else if m < |cliDir| + 1 + |id| {
        assert w[m] == id[m - |cliDir| - 1];
      } else if m < |stem| {
        assert w[m] == id[m - |cliDir| - 2 - |id|];
      } else {
        assert w[m] == ".cwl"[m - |stem|];
      }
    }
    assert w[|w| - 4..] == ".cwl";
    StripCwlToken(w);
    assert w[..|w| - 4] == stem;
  }

  /**
   * `wf_id` holds no character that sed would read specially in the replacement
   * or as a delimiter, and no `'`, which would end the shell's quoting of the
   * sed expression.
   */
  predicate SedSafe(wfId: string) {
    forall m :: 0 <= m < |wfId| ==>
      wfId[m] != '/' && wfId[m] != '&' && wfId[m] != '\\' && wfId[m] != '\n' && wfId[m] != '\''
  }

  /** sed `s/#main/#<wf_id>/g`: occurrences are replaced left to right, without overlap. */
  function ReplaceMain(s: string, wfId: string): string
    decreases |s|
  {
    if |s| >= 5 && s[..5] == "#main" then "#" + wfId + ReplaceMain(s[5..], wfId)
    else if s == [] then []
    else [s[0]] + ReplaceMain(s[1..], wfId)
  }

  /** Text without `#main` is left unchanged. */
  lemma {:induction false} ReplaceMainNone(s: string, wfId: string)
    requires !Contains(s, "#main")
    ensures ReplaceMain(s, wfId) == s
    decreases |s|
  {
    if s != [] {
      assert !(|s| >= 5 && s[..5] == "#main");
      assert Contains(s[1..], "#main") ==> Contains(s, "#main");
      ReplaceMainNone(s[1..], wfId);
    }
  }

  /**
   * The first `#main` of the text is replaced by `#<wf_id>`, the text before
   * it is kept, and the scan resumes right after it.
   */
  lemma {:induction false} ReplaceMainFirst(s: string, wfId: string, i: nat)
    requires OccursAt(s, "#main", i)
    requires forall j :: 0 <= j < i ==> !OccursAt(s, "#main", j)
    ensures ReplaceMain(s, wfId) == s[..i] + "#" + wfId + ReplaceMain(s[i + 5..], wfId)
    decreases i
  {
    if i > 0 {
      MainShift(s, i);
      ReplaceMainFirst(s[1..], wfId, i - 1);
      ReplaceMainCopy(s, wfId);
      ShiftSlices(s, i);
    } else {
      assert s[..0] == [];
    }
  }

  /** Where no `#main` starts, one character is copied. */
  lemma ReplaceMainCopy(s: string, wfId: string)
    requires s != [] && !OccursAt(s, "#main", 0)
    ensures ReplaceMain(s, wfId) == [s[0]] + ReplaceMain(s[1..], wfId)
  {
  }

  lemma ShiftSlices(s: string, i: nat)
    requires 0 < i && i + 5 <= |s|
    ensures s[1..][i - 1 + 5..] == s[i + 5..]
    ensures [s[0]] + s[1..][..i - 1] == s[..i]
  {
    assert [s[0]] + s[1..][..i - 1] == s[..i];
  }

  /** The first `#main` of `s` at `i > 0` is the first of `s[1..]`, at `i - 1`. */
  lemma MainShift(s: string, i: nat)
    requires 0 < i && OccursAt(s, "#main", i)
    requires forall j :: 0 <= j < i ==> !OccursAt(s, "#main", j)
    ensures OccursAt(s[1..], "#main", i - 1)
    ensures forall j :: 0 <= j < i - 1 ==> !OccursAt(s[1..], "#main", j)
  {
    assert s[1..][i - 1..i - 1 + 5] == s[i..i + 5];
    forall j | 0 <= j < i - 1 ensures !OccursAt(s[1..], "#main", j) {
      assert s[1..][j..j + 5] == s[j + 1..j + 1 + 5];
      assert !OccursAt(s, "#main", j + 1);
    }
  }

  /** Renaming to `main` itself changes nothing. */
  lemma {:induction false} ReplaceMainSelf(s: string)
    ensures ReplaceMain(s, "main") == s
    decreases |s|
  {
    if |s| >= 5 && s[..5] == "#main" {
      ReplaceMainSelf(s[5..]);
      assert s == s[..5] + s[5..];
    } else if s != [] {
      ReplaceMainSelf(s[1..]);
    }
  }

  /**
   * `cleanup_packed_workflow` on the text of the packed file: every run
   * between spaces and line ends loses its last `.cwl`, and then every
   * `#main` of the result is renamed.
   */
  function CleanupPacked(text: string, wfId: string): (r: string)
    requires SedSafe(wfId)
    ensures r == ReplaceMain(StripRuns(text), wfId)
  {
    StripCwlByRuns(text);
    ReplaceMain(StripCwl(text), wfId)
  }

  /** A file with neither `.cwl` nor `#main` in it comes out unchanged. */
  lemma CleanupNoMarkers(text: string, wfId: string)
    requires SedSafe(wfId)
    requires !Contains(text, ".cwl") && !Contains(text, "#main")
    ensures CleanupPacked(text, wfId) == text
  {
    StripCwlNoCwl(text);
    ReplaceMainNone(text, wfId);
  }

  /**
   * The clean-up is not idempotent, first case: a token with two `.cwl`
   * loses one per pass.
   */
  lemma CleanupTwiceStripsAgain(stem: string)
    requires forall m :: 0 <= m < |stem| ==> !IsBreak(stem[m])
    ensures CleanupPacked(stem + ".cwl.cwl", "main") == stem + ".cwl"
    ensures CleanupPacked(stem + ".cwl", "main") == stem
  {
    CleanupStripsOne(stem);
    CleanupStripsOne(stem + ".cwl");
    assert stem + ".cwl.cwl" == (stem + ".cwl") + ".cwl";
  }

  /** One pass on a token ending in `.cwl`, with the identity renaming. */
  lemma CleanupStripsOne(stem: string)
    requires forall m :: 0 <= m < |stem| ==> !IsBreak(stem[m])
    ensures forall m :: 0 <= m < |stem + ".cwl"| ==> !IsBreak((stem + ".cwl")[m])
    ensures CleanupPacked(stem + ".cwl", "main") == stem
  {
    var w := stem + ".cwl";
    forall m | 0 <= m < |w| ensures !IsBreak(w[m]) {
      if m < |stem| {
        assert w[m] == stem[m];
      } else {
        assert w[m] == ".cwl"[m - |stem|];
      }
    }
    assert w[|w| - 4..] == ".cwl";
    StripCwlToken(w);
    assert w[..|w| - 4] == stem;
    ReplaceMainSelf(stem);
  }

  /**
   * The clean-up is not idempotent, second case: a workflow id `main<x>`
   * that starts with `main` is renamed again on a second pass.
   */
  lemma CleanupTwiceRenamesAgain(x: string)
    requires forall m :: 0 <= m < |x| ==> x[m] != '.' && x[m] != '#'
    requires SedSafe("main" + x)
    ensures CleanupPacked("#main", "main" + x) == "#main" + x
    ensures CleanupPacked("#main" + x, "main" + x) == "#main" + x + x
  {
    RenameOnce(x, []);
    assert "#main" + [] == "#main";
    RenameOnce(x, x);
  }

  /** `#main<y>` (no `.` or `#` in `y`) comes out as `#main<x><y>` under the id `main<x>`. */
  lemma RenameOnce(x: string, y: string)
    requires forall m :: 0 <= m < |y| ==> y[m] != '.' && y[m] != '#'
    ensures StripCwl("#main" + y) == "#main" + y
    ensures ReplaceMain("#main" + y, "main" + x) == "#main" + x + y
  {
    MainTextNoCwl(y);
    MainTextRenamed(x, y);
  }

  lemma MainTextNoCwl(y: string)
    requires forall m :: 0 <= m < |y| ==> y[m] != '.'
    ensures StripCwl("#main" + y) == "#main" + y
  {
    MainMarkerNoDot();
    NoDotConcatUnchanged("#main", y);
  }

  lemma MainMarkerNoDot()
    ensures '.' !in "#main"
  {
    assert "#main" == ['#', 'm', 'a', 'i', 'n'];
  }

  lemma NoDotConcatUnchanged(a: string, b: string)
    requires '.' !in a
    requires forall m :: 0 <= m < |b| ==> b[m] != '.'
    ensures StripCwl(a + b) == a + b
  {
    forall m | 0 <= m < |a + b| ensures (a + b)[m] != '.' {
      if m < |a| {
        assert a[m] in a;
      }
    }
    NoDotUnchanged(a + b);
  }

  /** Text without a `.` is left unchanged. */
  lemma NoDotUnchanged(t: string)
    requires forall m :: 0 <= m < |t| ==> t[m] != '.'
    ensures StripCwl(t) == t
  {
    AbsentFirst(t, ".cwl");
    StripCwlNoCwl(t);
  }

  lemma MainTextRenamed(x: string, y: string)
    requires forall m :: 0 <= m < |y| ==> y[m] != '#'
    ensures ReplaceMain("#main" + y, "main" + x) == "#main" + x + y
  {
    var t := "#main" + y;
    assert t[..5] == "#main" && t[5..] == y && t[..0] == [];
    AbsentFirst(y, "#main");
    ReplaceMainNone(y, "main" + x);
    ReplaceMainFirst(t, "main" + x, 0);
    MainRef(x);
  }

  lemma MainRef(x: string)
    ensures "#" + ("main" + x) == "#main" + x
  {
    assert "#main" == "#" + "main";
  }

  lemma CwlStartsWithDot(s: string, e: int)
    requires 4 <= e <= |s|
    ensures CwlEndsAt(s, e) ==> s[e - 4] == '.'
  {
    assert s[e - 4..e][0] == s[e - 4];
  }

  /** In a single space-free token, only the last `.cwl` is deleted. */
  lemma StripCwlLastInToken(w: string, i: nat)
    requires forall m :: 0 <= m < |w| ==> !IsBreak(w[m])
    requires OccursAt(w, ".cwl", i)
    requires forall e :: i + 4 < e <= |w| ==> !CwlEndsAt(w, e)
    ensures StripCwl(w) == w[..i] + w[i + 4..]
  {
    RunsOfToken(w, i);
    StripCwlByRuns(w);
  }

  lemma RunsOfToken(w: string, i: nat)
    requires forall m :: 0 <= m < |w| ==> !IsBreak(w[m])
    requires OccursAt(w, ".cwl", i)
    requires forall e :: i + 4 < e <= |w| ==> !CwlEndsAt(w, e)
    ensures StripRuns(w) == w[..i] + w[i + 4..]
  {
    assert RunEnd(w) == |w|;
    LastCwlEndIs(w, |w|, i + 4);
  }

  lemma RunsOfSuffixToken(w: string)
    requires |w| >= 4 && w[|w| - 4..] == ".cwl"
    requires forall m :: 0 <= m < |w| ==> !IsBreak(w[m])
    ensures StripRuns(w) == w[..|w| - 4]
  {
    var i := |w| - 4;
    assert w[i..i + 4] == w[|w| - 4..];
    RunsOfToken(w, i);
    assert w[i + 4..] == [];
  }

  /** The last end of `.cwl` up to `hi` is the one with no other after it. */
  lemma LastCwlEndIs(s: string, hi: nat, e: nat)
    requires e <= hi <= |s| && CwlEndsAt(s, e)
    requires forall e' :: e < e' <= hi ==> !CwlEndsAt(s, e')
    ensures LastCwlEnd(s, hi) == Some(e)
  {
    var r := LastCwlEnd(s, hi);
    if r.None? || r.value < e {
      assert false;
    }
  }

  /**
   * A packed step id keeps its document path: only the `.cwl` is removed, so
   * `<path>.cwl#<id>` becomes `<path>#<id>` (with `path` and `id` free of
   * spaces and `id` free of dots).
   */
  lemma PackedIdKeepsPath(path: string, id: string)
    requires forall m :: 0 <= m < |path| ==> !IsBreak(path[m])
    requires forall m :: 0 <= m < |id| ==> !IsBreak(id[m]) && id[m] != '.'
    ensures StripCwl(path + ".cwl#" + id) == path + "#" + id
  {
    var w := path + ".cwl#" + id;
    assert w[..|path|] == path;
    assert w[|path| + 4..] == "#" + id;
    PackedIdShape(path, id);
    StripCwlLastInToken(w, |path|);
  }

  /** `<path>.cwl#<id>` is one space-free token whose only `.cwl` follows `path`. */
  lemma PackedIdShape(path: string, id: string)
    requires forall m :: 0 <= m < |path| ==> !IsBreak(path[m])
    requires forall m :: 0 <= m < |id| ==> !IsBreak(id[m]) && id[m] != '.'
    ensures var w := path + ".cwl#" + id;
      && (forall m :: 0 <= m < |w| ==> !IsBreak(w[m]))
      && OccursAt(w, ".cwl", |path|)
      && forall e :: |path| + 4 < e <= |w| ==> !CwlEndsAt(w, e)
  {
    var w := path + ".cwl#" + id;
    var i := |path|;
    assert w[i..i + 4] == ".cwl";
    forall m | 0 <= m < |w| ensures !IsBreak(w[m]) {
      if m < i {
        assert w[m] == path[m];
      } else if m >= i + 5 {
        assert w[m] == id[m - i - 5];
      }
    }
    forall e | i + 4 < e <= |w| ensures !CwlEndsAt(w, e) {
      if e - 4 >= i + 5 {
        assert w[e - 4] == id[e - 4 - i - 5];
      } else {
        assert w[e - 4] == ".cwl#"[e - 4 - i];
      }
      CwlStartsWithDot(w, e);
    }
  }

  /** A packed step reference `file:///a/b/step1.cwl#step1` becomes `file:///a/b/step1#step1`: the path keeps its stem. */
  lemma PackedStepId()
    ensures StripCwl("file:///a/b/step1.cwl#step1") == "file:///a/b/step1#step1"
  {
    assert "file:///a/b/step1" + ".cwl#" + "step1" == "file:///a/b/step1.cwl#step1";
    assert "file:///a/b/step1" + "#" + "step1" == "file:///a/b/step1#step1";
    PackedIdKeepsPath("file:///a/b/step1", "step1");
  }
}
