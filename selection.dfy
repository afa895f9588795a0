/** The best-checkpoint selection of the epoch loop, over the sequence of
    validation scores alone. */
module Selection {

  /** An epoch's score triggers a checkpoint write when it strictly beats
      the best so far and this is the main process. */
  predicate Improves(best: real, score: real, isMain: bool) {
    isMain && score > best
  }

  /** The best score after an epoch with the given score. */
  function Next(best: real, score: real, isMain: bool): real {
    if Improves(best, score, isMain) then score else best
  }

  /** The best score after the epochs whose scores are `scores`, starting
      from `b0`. */
  function BestAfter(b0: real, scores: seq<real>, isMain: bool): real
    decreases |scores|
  {
    if |scores| == 0 then b0
    else Next(BestAfter(b0, scores[..|scores| - 1], isMain), scores[|scores| - 1], isMain)
  }

  /** The last score of `s` is a record: it strictly beats the starting best
      and every earlier score. */
  predicate IsRecord(b0: real, s: seq<real>) {
    |s| > 0 && s[|s| - 1] > b0 && forall j :: 0 <= j < |s| - 1 ==> s[|s| - 1] > s[j]
  }

  /** The number of records among the scores. */
  function RecordCount(b0: real, s: seq<real>): nat
    decreases |s|
  {
    if |s| == 0 then 0 else RecordCount(b0, s[..|s| - 1]) + (if IsRecord(b0, s) then 1 else 0)
  }

  /** The best never decreases: the best after a prefix of the epochs is at
      most the best after all of them. */
  lemma {:induction false} BestNeverDecreases(b0: real, s: seq<real>, isMain: bool, i: nat)
    requires i <= |s|
    ensures BestAfter(b0, s[..i], isMain) <= BestAfter(b0, s, isMain)
    decreases |s|
  {
    if i < |s| {
      var prefix := s[..|s| - 1];
      assert prefix[..i] == s[..i];
      BestNeverDecreases(b0, prefix, isMain, i);
    } else {
      assert s[..i] == s;
    }
  }

  /** On the main process the best is the maximum of the starting best and
      every score seen. */
  lemma {:induction false} MainBestIsMax(b0: real, s: seq<real>)
    ensures BestAfter(b0, s, true) >= b0
    ensures forall k :: 0 <= k < |s| ==> BestAfter(b0, s, true) >= s[k]
    ensures BestAfter(b0, s, true) == b0 || exists k :: 0 <= k < |s| && BestAfter(b0, s, true) == s[k]
    decreases |s|
  {
    if |s| > 0 {
      var prefix := s[..|s| - 1];
      MainBestIsMax(b0, prefix);
      assert forall k :: 0 <= k < |prefix| ==> prefix[k] == s[k];
      if BestAfter(b0, prefix, true) != b0 {
        var k :| 0 <= k < |prefix| && BestAfter(b0, prefix, true) == prefix[k];
        assert BestAfter(b0, prefix, true) == s[k];
      }
    }
  }

  /** Off the main process the best never changes. */
  lemma {:induction false} NonMainBestFixed(b0: real, s: seq<real>)
    ensures BestAfter(b0, s, false) == b0
    decreases |s|
  {
    if |s| > 0 {
      NonMainBestFixed(b0, s[..|s| - 1]);
    }
  }

  /** An epoch writes a checkpoint exactly when this is the main process and
      its score is a record; a repeated or lower score never writes. */
  lemma ImprovesIffRecord(b0: real, s: seq<real>, isMain: bool)
    requires |s| > 0
    ensures Improves(BestAfter(b0, s[..|s| - 1], isMain), s[|s| - 1], isMain)
            <==> isMain && IsRecord(b0, s)
  {
    var prefix := s[..|s| - 1];
    if isMain {
      MainBestIsMax(b0, prefix);
      assert forall k :: 0 <= k < |prefix| ==> prefix[k] == s[k];
    }
  }

  /** An end-to-end example: from 0.0, scores 0.40, 0.55,
      0.50 write at the first two epochs only and end at 0.55. */
  lemma ThreeEpochExample()
    ensures BestAfter(0.0, [0.40, 0.55, 0.50], true) == 0.55
    ensures IsRecord(0.0, [0.40]) && IsRecord(0.0, [0.40, 0.55])
    ensures !IsRecord(0.0, [0.40, 0.55, 0.50])
  {
    assert [0.40, 0.55, 0.50][..2] == [0.40, 0.55];
    assert [0.40, 0.55][..1] == [0.40];
    assert [0.40][..0] == [];
  }

  /** From 0.0, scores 0.5, 0.4, 0.6, 0.6, 0.7 hold three records (the
      first 0.5, the first 0.6 and 0.7) and end at 0.7: neither the drop
      nor the repeated 0.6 is a record. */
  lemma RepeatedScoreExample()
    ensures BestAfter(0.0, [0.5, 0.4, 0.6, 0.6, 0.7], true) == 0.7
    ensures RecordCount(0.0, [0.5, 0.4, 0.6, 0.6, 0.7]) == 3
    ensures !IsRecord(0.0, [0.5, 0.4]) && !IsRecord(0.0, [0.5, 0.4, 0.6, 0.6])
  {
    var s := [0.5, 0.4, 0.6, 0.6, 0.7];
    assert s[..4] == [0.5, 0.4, 0.6, 0.6];
    assert s[..4][..3] == [0.5, 0.4, 0.6];
    assert s[..4][..3][..2] == [0.5, 0.4];
    assert s[..4][..3][..2][..1] == [0.5];
    assert [0.5][..0] == [];
    assert IsRecord(0.0, [0.5]);
    assert [0.5, 0.4][1] <= [0.5, 0.4][0];
    assert IsRecord(0.0, [0.5, 0.4, 0.6]);
    assert [0.5, 0.4, 0.6, 0.6][3] <= [0.5, 0.4, 0.6, 0.6][2];
    assert IsRecord(0.0, s);
  }

  /** Resuming from a stored best of 0.60, an epoch scoring 0.58 writes
      nothing and leaves the best at 0.60. */
  lemma ResumeExample()
    ensures BestAfter(0.60, [0.58], true) == 0.60
    ensures !IsRecord(0.60, [0.58])
  {
    assert [0.58][..0] == [];
  }
}
