/**
 * The volumes a crossfade applies to the retiring player. Volumes are counted
 * in hundredths of full scale: the code's `1f` is 100 and its step `0.05F` is 5.
 */
module Fade {
  const FullVolume: int := 100
  const FadeStep: int := 5

  /**
   * The volumes applied by successive ticks of a fade whose volume is `v`:
   * each tick applies the volume and then lowers it by one step, and the fade
   * ends at the first tick that leaves the volume at or below zero.
   */
  function Schedule(v: int): (s: seq<int>)
    ensures forall i :: 0 <= i < |s| ==> 0 < s[i] <= v
    ensures v > 0 ==> |s| > 0 && s[0] == v
    decreases v
  {
    if v <= 0 then [] else [v] + Schedule(v - FadeStep)
  }

  lemma {:induction false} ScheduleShape(v: int)
    ensures |Schedule(v)| == if v <= 0 then 0 else (v + FadeStep - 1) / FadeStep
    ensures forall i :: 0 <= i < |Schedule(v)| ==> Schedule(v)[i] == v - i * FadeStep
    decreases v
  {
    if v > 0 {
      ScheduleShape(v - FadeStep);
      var rest := Schedule(v - FadeStep);
      assert Schedule(v) == [v] + rest;
      forall i | 0 < i < |Schedule(v)| ensures Schedule(v)[i] == v - i * FadeStep {
        assert Schedule(v)[i] == rest[i - 1];
      }
    }
  }

  /** Applying one tick's volume moves it from the schedule to the log. */
  lemma ScheduleStep(log: seq<int>, v: int)
    requires v > 0
    ensures (log + [v]) + (if v - FadeStep > 0 then Schedule(v - FadeStep) else []) == log + Schedule(v)
  {
    assert Schedule(v) == [v] + Schedule(v - FadeStep);
    assert v - FadeStep <= 0 ==> Schedule(v - FadeStep) == [];
  }

  /** Applied volumes strictly decrease and stay within (0, v]. */
  lemma ScheduleDecreasing(v: int)
    ensures forall i, j :: 0 <= i < j < |Schedule(v)| ==> Schedule(v)[j] < Schedule(v)[i]
    ensures forall i :: 0 <= i < |Schedule(v)| ==> 0 < Schedule(v)[i] <= v
  {
    ScheduleShape(v);
  }

  /** A fade from full volume takes twenty ticks, the last one applying one step. */
  lemma FullFadeTakesTwentyTicks()
    ensures |Schedule(FullVolume)| == 20
    ensures Schedule(FullVolume)[19] == FadeStep
  {
    ScheduleShape(FullVolume);
  }
}
