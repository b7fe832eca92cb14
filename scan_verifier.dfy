/**
 * The frame-index sequence that `start_verifier` of
 * `scanlib/tomo_scan_lib.py` sends to the remote data verifier, and the
 * frame total that `setup_writer` of `tomo/32id/tomo_scan_lib.py` gives the
 * HDF writer.
 */
module ScanVerifier {
  import opened Common


  /** The variables `start_verifier` looks up, in order, with the data tag of each block. */
  const VerifierBlocks: seq<(string, string)> := [
    ("PreDarkImages", "data_dark"),
    ("PreWhiteImages", "data_white"),
    ("Projections", "data"),
    ("PostDarkImages", "data_dark"),
    ("PostWhiteImages", "data_white")
  ]

  /** The sequence built from `blocks`, the running index standing at `index`. */
  function Entries(blocks: seq<(string, string)>, variables: map<string, int>, index: int): seq<(string, int)> {
    if blocks == [] then []
    else if blocks[0].0 in variables then
      var next := index + variables[blocks[0].0];
      [(blocks[0].1, next)] + Entries(blocks[1..], variables, next)
    else Entries(blocks[1..], variables, index)
  }

  /** The blocks whose variable is present, as (tag, image count). */
  function Present(blocks: seq<(string, string)>, variables: map<string, int>): seq<(string, int)> {
    if blocks == [] then []
    else if blocks[0].0 in variables then [(blocks[0].1, variables[blocks[0].0])] + Present(blocks[1..], variables)
    else Present(blocks[1..], variables)
  }

  function SumCounts(s: seq<(string, int)>): int {
    if s == [] then 0 else s[0].1 + SumCounts(s[1..])
  }

  /**
   * The sequence-building part of `start_verifier`: the five look-ups, in
   * table order; each present variable adds its count to the running index
   * (begun at -1) and appends (tag, index).
   */
  method VerifierSequence(variables: map<string, int>) returns (sequence: seq<(string, int)>)
    ensures sequence == Entries(VerifierBlocks, variables, -1)
  {
    sequence := [];
    var index := -1;
    var j := 0;
    while j < |VerifierBlocks|
      invariant 0 <= j <= |VerifierBlocks|
      invariant sequence + Entries(VerifierBlocks[j..], variables, index) == Entries(VerifierBlocks, variables, -1)
    {
      EntriesStep(VerifierBlocks, j, variables, index, sequence);
      var (name, tag) := VerifierBlocks[j];
      if name in variables {
        index := index + variables[name];
        sequence := sequence + [(tag, index)];
      }
      j := j + 1;
    }
  }

  /** The sequence built so far followed by the rest, one block further on. */
  lemma EntriesStep(blocks: seq<(string, string)>, j: nat, variables: map<string, int>, index: int,
                    done: seq<(string, int)>)
    requires j < |blocks|
    ensures var key := blocks[j].0;
            done + Entries(blocks[j..], variables, index)
            == if key in variables
               then (done + [(blocks[j].1, index + variables[key])])
                    + Entries(blocks[j + 1..], variables, index + variables[key])
               else done + Entries(blocks[j + 1..], variables, index)
  {
    EntriesUnfold(blocks, j, variables, index);
  }

  /** One block of the sequence: its entry, if its variable is present, then the rest. */
  lemma EntriesUnfold(blocks: seq<(string, string)>, j: nat, variables: map<string, int>, index: int)
    requires j < |blocks|
    ensures Entries(blocks[j..], variables, index)
            == if blocks[j].0 in variables
               then [(blocks[j].1, index + variables[blocks[j].0])]
                    + Entries(blocks[j + 1..], variables, index + variables[blocks[j].0])
               else Entries(blocks[j + 1..], variables, index)
  {
    assert blocks[j..][0] == blocks[j] && blocks[j..][1..] == blocks[j + 1..];
  }

  /**
   * Entry j of the sequence is the j-th present block's tag with the index
   * of that block's last frame: the start index plus the counts of the
   * present blocks up to and including it. Absent variables add nothing.
   */
  lemma EntriesAreRunningSums(blocks: seq<(string, string)>, variables: map<string, int>, index: int)
    ensures var e := Entries(blocks, variables, index);
            var p := Present(blocks, variables);
            && |e| == |p|
            && forall j :: 0 <= j < |e| ==> e[j] == (p[j].0, index + SumCounts(p[..j + 1]))
  {
    EntriesLength(blocks, variables, index);
    forall j | 0 <= j < |Entries(blocks, variables, index)|
      ensures Entries(blocks, variables, index)[j]
              == (Present(blocks, variables)[j].0, index + SumCounts(Present(blocks, variables)[..j + 1]))
    {
      EntryIsRunningSum(blocks, variables, index, j);
    }
  }

  /** One entry per present block. */
  lemma {:induction false} EntriesLength(blocks: seq<(string, string)>, variables: map<string, int>, index: int)
    ensures |Entries(blocks, variables, index)| == |Present(blocks, variables)|
    decreases |blocks|
  {
    if blocks != [] {
      EntriesLength(blocks[1..], variables,
        if blocks[0].0 in variables then index + variables[blocks[0].0] else index);
    }
  }

  /** Entry j of the sequence, for one j. */
  lemma {:induction false} EntryIsRunningSum(blocks: seq<(string, string)>, variables: map<string, int>, index: int, j: nat)
    requires j < |Entries(blocks, variables, index)|
    ensures j < |Present(blocks, variables)|
    ensures Entries(blocks, variables, index)[j]
            == (Present(blocks, variables)[j].0, index + SumCounts(Present(blocks, variables)[..j + 1]))
    decreases |blocks|
  {
    EntriesLength(blocks, variables, index);
    var e, p := Entries(blocks, variables, index), Present(blocks, variables);
    if blocks[0].0 in variables {
      var next := index + variables[blocks[0].0];
      var e', p' := Entries(blocks[1..], variables, next), Present(blocks[1..], variables);
      EntriesLength(blocks[1..], variables, next);
      assert e == [e[0]] + e' && p == [p[0]] + p';
      SumCountsCons(p[0], p', j);
      if j > 0 {
        EntryIsRunningSum(blocks[1..], variables, next, j - 1);
        assert e[j] == e'[j - 1] && p[j] == p'[j - 1];
      } else {
        assert p'[..0] == [];
      }
    } else {
      EntryIsRunningSum(blocks[1..], variables, index, j);
    }
  }

  /** The counts of the first j + 1 entries of `[x] + t`: x's, then those of t's first j. */
  lemma SumCountsCons(x: (string, int), t: seq<(string, int)>, j: nat)
    requires j <= |t|
    ensures SumCounts(([x] + t)[..j + 1]) == x.1 + SumCounts(t[..j])
  {
    var u := ([x] + t)[..j + 1];
    assert u[0] == x && u[1..] == t[..j];
  }

  /** The verifier's tags, in order: one per present variable. */
  lemma VerifierTags(variables: map<string, int>)
    ensures var p := Present(VerifierBlocks, variables);
            var e := Entries(VerifierBlocks, variables, -1);
            |e| == |p| && forall j :: 0 <= j < |e| ==> e[j].0 == p[j].0 && e[j].1 == SumCounts(p[..j + 1]) - 1
  {
    EntriesAreRunningSums(VerifierBlocks, variables, -1);
  }

  /** All five image counts are among the scan variables. */
  predicate AllCounts(variables: map<string, int>) {
    && "PreDarkImages" in variables && "PreWhiteImages" in variables && "Projections" in variables
    && "PostDarkImages" in variables && "PostWhiteImages" in variables
  }

  /**
   * `setup_writer` of the older copy: HDF1_NumCapture is the sum of the five
   * image counts; a missing one raises KeyError.
   */
  function TotalProjections(variables: map<string, int>): (r: Result<int>)
    ensures r.Ok? <==> AllCounts(variables)
  {
    if AllCounts(variables) then Ok(variables["PreDarkImages"] + variables["PreWhiteImages"] + variables["Projections"]
            + variables["PostDarkImages"] + variables["PostWhiteImages"])
    else Err(KeyError)
  }

  /**
   * With all five variables present the verifier's last entry is a white
   * field at index total - 1: the last frame the HDF writer captures.
   */
  lemma VerifierEndsAtLastFrame(variables: map<string, int>)
    requires AllCounts(variables)
    ensures var e := Entries(VerifierBlocks, variables, -1);
            |e| == 5 && e[4] == ("data_white", TotalProjections(variables).value - 1)
  {
    var b := VerifierBlocks;
    var i1 := -1 + variables["PreDarkImages"];
    var i2 := i1 + variables["PreWhiteImages"];
    var i5 := i2 + variables["Projections"] + variables["PostDarkImages"] + variables["PostWhiteImages"];
    assert i5 == TotalProjections(variables).value - 1;
    var e2 := Entries(b[2..], variables, i2);
    VerifierLastBlocks(variables, i2);
    var e1 := Entries(b[1..], variables, i1);
    assert e1 == [("data_white", i2)] + e2 by { EntriesUnfold(b, 1, variables, i1); }
    var e0 := Entries(b, variables, -1);
    assert e0 == [("data_dark", i1)] + e1 by {
      EntriesUnfold(b, 0, variables, -1);
      assert b[0..] == b;
    }
    assert |e0| == 5 && e0[4] == e2[2];
  }

  /** The entries of the last three blocks, the running index standing at `i2`. */
  lemma VerifierLastBlocks(variables: map<string, int>, i2: int)
    requires AllCounts(variables)
    ensures var i3 := i2 + variables["Projections"];
            var i4 := i3 + variables["PostDarkImages"];
            var e := Entries(VerifierBlocks[2..], variables, i2);
            |e| == 3 && e[2] == ("data_white", i4 + variables["PostWhiteImages"])
  {
    var b := VerifierBlocks;
    var i3 := i2 + variables["Projections"];
    var i4 := i3 + variables["PostDarkImages"];
    var i5 := i4 + variables["PostWhiteImages"];
    var e4 := Entries(b[4..], variables, i4);
    assert e4 == [("data_white", i5)] by {
      EntriesUnfold(b, 4, variables, i4);
      assert b[5..] == [];
    }
    var e3 := Entries(b[3..], variables, i3);
    assert e3 == [("data_dark", i4)] + e4 by { EntriesUnfold(b, 3, variables, i3); }
    var e2 := Entries(b[2..], variables, i2);
    assert e2 == [("data", i3)] + e3 by { EntriesUnfold(b, 2, variables, i2); }
  }
}
