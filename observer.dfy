// The achievement observer (Observer.h): two counters with one unlock
// threshold each. The unlock message is reported as a boolean result.

module Observers {

  const RequiredPotions: int := 6
  const RequiredShouts: int := 5

  class AchievementObserver {
    var potionsCollected: int
    var shoutsPerformed: int

    constructor ()
      ensures potionsCollected == 0 && shoutsPerformed == 0
    {
      potionsCollected := 0;
      shoutsPerformed := 0;
    }

    /** Counts one potion; `unlocked` is the "all potions collected" achievement. */
    method OnPotionCollected() returns (unlocked: bool)
      modifies this`potionsCollected
      ensures potionsCollected == old(potionsCollected) + 1
      ensures unlocked <==> potionsCollected == RequiredPotions
      ensures [unlocked] == Unlocks(old(potionsCollected), 1, RequiredPotions)
    {
      potionsCollected := potionsCollected + 1;
      unlocked := potionsCollected == RequiredPotions;
    }

    /** Counts one shout; `unlocked` is the "shouted five times" achievement. */
    method OnShoutPerformed() returns (unlocked: bool)
      modifies this`shoutsPerformed
      ensures shoutsPerformed == old(shoutsPerformed) + 1
      ensures unlocked <==> shoutsPerformed == RequiredShouts
      ensures [unlocked] == Unlocks(old(shoutsPerformed), 1, RequiredShouts)
    {
      shoutsPerformed := shoutsPerformed + 1;
      unlocked := shoutsPerformed == RequiredShouts;
    }
  }

  /**
   * The unlock reports of `calls` successive notifications starting from
   * counter value `count`: entry i is true iff the (i+1)-th call unlocks,
   * the rule both notification methods follow.
   */
  function Unlocks(count: int, calls: nat, required: int): (u: seq<bool>)
    ensures |u| == calls
    decreases calls
  {
    if calls == 0 then [] else [count + 1 == required] + Unlocks(count + 1, calls - 1, required)
  }

  /**
   * The reports of a + b calls are those of the first a calls followed by
   * those of the next b, which start from the count the first a left.
   */
  lemma {:induction false} UnlocksSplit(count: int, a: nat, b: nat, required: int)
    ensures Unlocks(count, a + b, required) == Unlocks(count, a, required) + Unlocks(count + a, b, required)
    decreases a
  {
    if a > 0 {
      UnlocksSplit(count + 1, a - 1, b, required);
      assert count + 1 + (a - 1) == count + a;
    }
  }

  lemma {:induction false} UnlocksEntry(count: int, calls: nat, required: int, i: nat)
    requires i < calls
    ensures Unlocks(count, calls, required)[i] <==> count + i + 1 == required
    decreases calls
  {
    if i > 0 {
      UnlocksEntry(count + 1, calls - 1, required, i - 1);
    }
  }

  /**
   * From a fresh observer, the achievement is reported exactly once, on
   * call number `required`, and never if fewer calls are made.
   */
  lemma UnlocksExactlyOnce(calls: nat, required: int, i: nat)
    requires required >= 1 && i < calls
    ensures Unlocks(0, calls, required)[i] <==> i + 1 == required
  {
    UnlocksEntry(0, calls, required, i);
  }

  lemma PotionAchievementOnSixthCall(calls: nat, i: nat)
    requires i < calls
    ensures Unlocks(0, calls, RequiredPotions)[i] <==> i == 5
  {
    UnlocksExactlyOnce(calls, RequiredPotions, i);
  }

  lemma ShoutAchievementOnFifthCall(calls: nat, i: nat)
    requires i < calls
    ensures Unlocks(0, calls, RequiredShouts)[i] <==> i == 4
  {
    UnlocksExactlyOnce(calls, RequiredShouts, i);
  }
}
