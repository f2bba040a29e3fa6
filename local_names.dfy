/**
 * Local file names of a staged project (shared by src/job/projectFiles.ts,
 * src/platforms/fitkit2/project-config.ts and src/project/Project.ts): the
 * cross-platform basename and the collision renaming `stem_i.ext`.
 */
module LocalNames {
  import opened Wrappers
  import opened JsText

  /** The path separators of both UNIX and Windows paths. */
  const Separators: set<char> := {'/', '\\'}

  const InvalidPathMessage: string := "Unable to create file, invalid path"

  /**
   * `crossPlatformBasename`: a path with at least one separator yields its
   * last segment (after the last separator, possibly empty); a path
   * without a separator is an error.
   */
  function CrossPlatformBasename(path: string): (r: Result<string, string>)
    ensures r.Success? <==> HasSep(path, Separators)
    ensures r.Failure? ==> r.error == InvalidPathMessage
    ensures r.Success? ==>
      !HasSep(r.value, Separators) && |r.value| < |path| &&
      path[|path| - |r.value|..] == r.value && path[|path| - |r.value| - 1] in Separators
  {
    var pieces := Split(path, Separators);
    SplitSeveralIffSep(path, Separators);
    SplitLastIsSuffix(path, Separators);
    SplitPiecesHaveNoSep(path, Separators);
    if |pieces| <= 1 then Failure(InvalidPathMessage) else Success(pieces[|pieces| - 1])
  }

  /** `i` for the numbers of `stem_i.ext`. */
  function Candidate(name: string, i: nat): string
  {
    var parts := SplitLimit(name, {'.'}, 2);
    parts[0] + "_" + NatToDecimal(i) + (if |parts| > 1 && parts[1] != "" then "." + parts[1] else "")
  }

  /** Different numbers give different candidates. */
  lemma CandidateInjective(name: string, i: nat, j: nat)
    requires Candidate(name, i) == Candidate(name, j)
    ensures i == j
  {
    var parts := SplitLimit(name, {'.'}, 2);
    var pre := parts[0] + "_";
    var suf := if |parts| > 1 && parts[1] != "" then "." + parts[1] else "";
    var di, dj := NatToDecimal(i), NatToDecimal(j);
    assert Candidate(name, i) == pre + di + suf;
    assert Candidate(name, j) == pre + dj + suf;
    assert |di| == |dj|;
    assert di == (pre + di + suf)[|pre|..|pre| + |di|];
    assert dj == (pre + dj + suf)[|pre|..|pre| + |dj|];
    NatToDecimalInjective(i, j);
  }

  /** The candidates numbered 1 to n. */
  function CandidatesUpTo(name: string, n: nat): set<string>
  {
    if n == 0 then {} else CandidatesUpTo(name, n - 1) + {Candidate(name, n)}
  }

  /** A candidate is not among those with smaller numbers. */
  lemma {:induction false} CandidateNotEarlier(name: string, m: nat, n: nat)
    requires m < n
    ensures Candidate(name, n) !in CandidatesUpTo(name, m)
  {
    if m > 0 {
      CandidateNotEarlier(name, m - 1, n);
      if Candidate(name, n) == Candidate(name, m) {
        CandidateInjective(name, n, m);
      }
    }
  }

  lemma {:induction false} CandidatesUpToSize(name: string, n: nat)
    ensures |CandidatesUpTo(name, n)| == n
    ensures forall j :: 1 <= j <= n ==> Candidate(name, j) in CandidatesUpTo(name, n)
  {
    if n > 0 {
      CandidatesUpToSize(name, n - 1);
      CandidateNotEarlier(name, n - 1, n);
    }
  }

  /** Pigeonhole: if candidates 1 .. n are all taken, there are at least n taken names. */
  lemma TakenCandidatesBound(name: string, keys: set<string>, n: nat)
    requires forall j :: 1 <= j <= n ==> Candidate(name, j) in keys
    ensures n <= |keys|
  {
    CandidatesUpToSize(name, n);
    CandidatesUpToTaken(name, keys, n);
    SubsetCardinality(CandidatesUpTo(name, n), keys);
  }

  lemma {:induction false} CandidatesUpToTaken(name: string, keys: set<string>, n: nat)
    requires forall j :: 1 <= j <= n ==> Candidate(name, j) in keys
    ensures CandidatesUpTo(name, n) <= keys
  {
    if n > 0 {
      CandidatesUpToTaken(name, keys, n - 1);
    }
  }

  lemma SubsetCardinality(a: set<string>, b: set<string>)
    requires a <= b
    ensures |a| <= |b|
  {
    assert b == a + (b - a);
  }

  /** The first candidate from number `i` on that is not taken. */
  function FirstFreeFrom(name: string, keys: set<string>, i: nat): (r: nat)
    requires i >= 1
    requires forall j :: 1 <= j < i ==> Candidate(name, j) in keys
    ensures r >= i && Candidate(name, r) !in keys
    ensures forall j :: 1 <= j < r ==> Candidate(name, j) in keys
    decreases |keys| + 1 - i
  {
    TakenCandidatesBound(name, keys, i - 1);
    if Candidate(name, i) !in keys then i
    else
      TakenCandidatesBound(name, keys, i);
      FirstFreeFrom(name, keys, i + 1)
  }

  /**
   * The local name of an FPGA file: its basename if not taken, otherwise
   * `stem_i[.ext]` for the smallest number i >= 1 whose name is not taken.
   */
  function FreeName(name: string, keys: set<string>): (r: string)
    ensures r !in keys
    ensures name !in keys ==> r == name
    ensures name in keys ==>
      exists i :: i >= 1 && r == Candidate(name, i) && forall j :: 1 <= j < i ==> Candidate(name, j) in keys
  {
    if name !in keys then name else Candidate(name, FirstFreeFrom(name, keys, 1))
  }

  /** The renaming loop: try the basename, then `stem_1.ext`, `stem_2.ext`, ... until one is not a key. */
  method PickLocalName(name: string, keys: set<string>) returns (local: string)
    ensures local == FreeName(name, keys)
  {
    local := name;
    if local !in keys {
      return;
    }
    var splitExt := SplitLimit(name, {'.'}, 2);
    var i := 1;
    while local in keys
      invariant i >= 1
      invariant forall j :: 1 <= j < i - 1 ==> Candidate(name, j) in keys
      invariant local == if i == 1 then name else Candidate(name, i - 1)
      invariant local !in keys ==> local == Candidate(name, FirstFreeFrom(name, keys, 1))
      decreases |keys| + 2 - i
    {
      TakenCandidatesBound(name, keys, i - 1);
      local := splitExt[0] + "_" + NatToDecimal(i) + (if |splitExt| > 1 && splitExt[1] != "" then "." + splitExt[1] else "");
      assert local == Candidate(name, i);
      if local !in keys {
        FirstFreeIsFirst(name, keys, 1, i);
      }
      i := i + 1;
    }
  }

  /** The first free candidate is the first one not taken. */
  lemma {:induction false} FirstFreeIsFirst(name: string, keys: set<string>, start: nat, i: nat)
    requires 1 <= start <= i
    requires forall j :: 1 <= j < i ==> Candidate(name, j) in keys
    requires Candidate(name, i) !in keys
    ensures FirstFreeFrom(name, keys, start) == i
    decreases i - start
  {
    if start < i {
      FirstFreeIsFirst(name, keys, start + 1, i);
    }
  }

}
