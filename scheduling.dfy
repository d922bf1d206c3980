/**
  `DurationBasedTestsSplitter`: splits the test cases into at most
  `MaxNrOfThreads` lists of roughly equal overall duration. The methods work
  step by step on mutable sequences, as the source does, and are proved
  against `SplittingSpec.Split`.
 */
module Scheduling {

  import opened Wrappers
  import opened SplittingSpec

  class DurationBasedTestsSplitter {
    /** `TestcaseDurations`: the dictionary from test case to duration. */
    const testcaseDurations: Durations
    /** `OverallDuration`: the sum of all durations, computed once by the constructor. */
    const overallDuration: int
    /** `Options.MaxNrOfThreads`. */
    const maxNrOfThreads: int

    ghost predicate Valid() {
      testcaseDurations.Valid() && overallDuration == Total(testcaseDurations)
    }

    constructor (testcaseDurations: Durations, maxNrOfThreads: int)
      requires testcaseDurations.Valid()
      ensures Valid()
      ensures this.testcaseDurations == testcaseDurations && this.maxNrOfThreads == maxNrOfThreads
    {
      this.testcaseDurations := testcaseDurations;
      this.maxNrOfThreads := maxNrOfThreads;
      this.overallDuration := SumOf(testcaseDurations.keys, testcaseDurations.weight);
    }

    /**
      The index of the first list whose durations add up to the least; 0 when
      there is no list. `None` stands for the `int.MaxValue` start value.
     */
    method GetIndexOfListWithShortestDuration(splitTestcases: seq<seq<TestCase>>) returns (index: nat)
      ensures |splitTestcases| == 0 ==> index == 0
      ensures |splitTestcases| > 0 ==> IsShortestIndex(splitTestcases, testcaseDurations.weight, index)
    {
      var w := testcaseDurations.weight;
      index := 0;
      var minDuration: Option<int> := None;
      for i := 0 to |splitTestcases|
        invariant minDuration.None? <==> i == 0
        invariant i == 0 ==> index == 0
        invariant i > 0 ==> index < i && minDuration.value == SumOf(splitTestcases[index], w)
        invariant i > 0 ==> forall j :: 0 <= j < i ==> minDuration.value <= SumOf(splitTestcases[j], w)
        invariant forall j :: 0 <= j < index ==> minDuration.value < SumOf(splitTestcases[j], w)
      {
        var duration := SumOf(splitTestcases[i], w);
        if minDuration.None? || duration < minDuration.value {
          minDuration := Some(duration);
          index := i;
        }
      }
    }

    /**
      The `do...while` loop of `SplitTestcases`: takes the next case, then
      keeps taking cases while the running sum plus the next case stays
      within `targetDuration`. Returns the list and the cases still to split.
     */
    method TakeNextList(sortedTestcases: seq<TestCase>, targetDuration: int)
      returns (currentList: seq<TestCase>, rest: seq<TestCase>)
      requires sortedTestcases != [] && Known(sortedTestcases, testcaseDurations.weight)
      ensures var k := FirstCut(sortedTestcases, testcaseDurations.weight, targetDuration);
        currentList == sortedTestcases[..k] && rest == sortedTestcases[k..]
      ensures WithinTarget(currentList, testcaseDurations.weight, targetDuration)
      ensures ClosedBefore(currentList, rest, testcaseDurations.weight, targetDuration)
    {
      var w := testcaseDurations.weight;
      var testcase := sortedTestcases[0];
      rest := sortedTestcases[1..];
      currentList := [testcase];
      var currentDuration := w[testcase];
      assert currentList == sortedTestcases[..1];
      while |rest| > 0 && currentDuration + w[rest[0]] <= targetDuration
        invariant 1 <= |currentList| <= |sortedTestcases|
        invariant currentList == sortedTestcases[..|currentList|] && rest == sortedTestcases[|currentList|..]
        invariant Cut(sortedTestcases, w, targetDuration, |currentList|, currentDuration)
               == FirstCut(sortedTestcases, w, targetDuration)
        decreases |rest|
      {
        CutStep(sortedTestcases, w, targetDuration, |currentList|, currentDuration);
        testcase := rest[0];
        rest := rest[1..];
        currentList := currentList + [testcase];
        currentDuration := currentDuration + w[testcase];
      }
      CutStop(sortedTestcases, w, targetDuration, |currentList|, currentDuration);
      FirstCutBounds(sortedTestcases, w, targetDuration);
    }

    /**
      `SplitTestcases`: the lists of test cases, one per thread at most, that
      together hold every test case exactly once.
     */
    method SplitTestcases() returns (splitTestcases: seq<seq<TestCase>>)
      requires Valid() && maxNrOfThreads >= 1
      ensures splitTestcases == Split(testcaseDurations, maxNrOfThreads)
      ensures multiset(Flatten(splitTestcases)) == multiset(testcaseDurations.keys)
      ensures |splitTestcases| <= maxNrOfThreads && |splitTestcases| <= |testcaseDurations.keys|
      ensures forall i :: 0 <= i < |splitTestcases| ==> splitTestcases[i] != []
    {
      var sortedTestcases := SortDesc(testcaseDurations.keys, testcaseDurations.weight);
      var nrOfThreadsToUse := maxNrOfThreads;
      var targetDuration := TruncDiv(overallDuration, nrOfThreadsToUse);
      SortDescKnown(testcaseDurations);

      splitTestcases, sortedTestcases := FillLists(sortedTestcases, targetDuration, nrOfThreadsToUse);
      Phase1Counts(SortDesc(testcaseDurations.keys, testcaseDurations.weight), testcaseDurations.weight,
                   targetDuration, nrOfThreadsToUse);
      splitTestcases := DistributeRest(splitTestcases, sortedTestcases);

      SplitIsPermutation(testcaseDurations, maxNrOfThreads);
      SplitListCount(testcaseDurations, maxNrOfThreads);
    }

    /**
      The first `while` loop of `SplitTestcases`: while cases and threads
      remain, the next list is taken greedily from the heaviest cases left.
     */
    method FillLists(sortedTestcases: seq<TestCase>, targetDuration: int, nrOfThreadsToUse: nat)
      returns (splitTestcases: seq<seq<TestCase>>, rest: seq<TestCase>)
      requires Known(sortedTestcases, testcaseDurations.weight)
      ensures Filled(splitTestcases, rest) == Phase1(sortedTestcases, testcaseDurations.weight, targetDuration, nrOfThreadsToUse)
    {
      var w := testcaseDurations.weight;
      ghost var first := Phase1(sortedTestcases, w, targetDuration, nrOfThreadsToUse);
      rest := sortedTestcases;
      splitTestcases := [];
      while |rest| > 0 && |splitTestcases| < nrOfThreadsToUse
        invariant |splitTestcases| <= nrOfThreadsToUse
        invariant Known(rest, w)
        invariant first.lists == splitTestcases + Phase1(rest, w, targetDuration, nrOfThreadsToUse - |splitTestcases|).lists
        invariant first.leftover == Phase1(rest, w, targetDuration, nrOfThreadsToUse - |splitTestcases|).leftover
        decreases |rest|
      {
        ghost var remaining := rest;
        ghost var slots := nrOfThreadsToUse - |splitTestcases|;
        var currentList;
        currentList, rest := TakeNextList(rest, targetDuration);
        ghost var tail := Phase1(rest, w, targetDuration, slots - 1);
        Phase1Unfold(remaining, w, targetDuration, slots);
        assert Phase1(remaining, w, targetDuration, slots) == Filled([currentList] + tail.lists, tail.leftover);
        assert first.lists == (splitTestcases + [currentList]) + tail.lists;
        splitTestcases := splitTestcases + [currentList];
      }
    }

    /**
      The second `while` loop of `SplitTestcases`: each remaining case, in
      order, goes to the list whose durations add up to the least.
     */
    method DistributeRest(splitTestcases: seq<seq<TestCase>>, sortedTestcases: seq<TestCase>)
      returns (result: seq<seq<TestCase>>)
      requires sortedTestcases != [] ==> |splitTestcases| > 0
      ensures result == Phase2(splitTestcases, sortedTestcases, testcaseDurations.weight)
    {
      var w := testcaseDurations.weight;
      result := splitTestcases;
      var rest := sortedTestcases;
      while |rest| > 0
        invariant rest != [] ==> |result| > 0
        invariant Phase2(result, rest, w) == Phase2(splitTestcases, sortedTestcases, w)
        decreases |rest|
      {
        var index := GetIndexOfListWithShortestDuration(result);
        Phase2Unfold(result, rest, w, index);
        result := result[index := result[index] + [rest[0]]];
        rest := rest[1..];
      }
    }
  }
}
