/**
 * The engine/audio-type check that `PlayerImplemTesterExoPlayer.open` performs
 * before it builds a player.
 */
module Compatibility {
  /** `Player.AUDIO_TYPE_*`: where the audio comes from. */
  datatype AudioType = Network | Livestream | File | Asset

  /** `PlayerImplemTesterExoPlayer.Type`: which ExoPlayer media-source strategy is used. */
  datatype EngineType = Default | HLS | DASH | SmoothStreaming

  /** Either the open may go on, or `IncompatibleException(audioType, type)` is thrown. */
  datatype Verdict = Compatible | Incompatible(audioType: AudioType, engineType: EngineType)

  predicate IsAdaptive(t: EngineType) {
    t == HLS || t == DASH || t == SmoothStreaming
  }

  /**
   * The check as the code writes it: both halves of the outer condition compare
   * against the livestream type, so the network type is not exempted.
   */
  function Check(audioType: AudioType, engineType: EngineType): (v: Verdict)
    ensures engineType == Default ==> v == Compatible
    ensures audioType == Livestream ==> v == Compatible
    ensures IsAdaptive(engineType) && audioType != Livestream ==> v == Incompatible(audioType, engineType)
  {
    if audioType != Livestream && audioType != Livestream then
      if engineType == HLS || engineType == DASH || engineType == SmoothStreaming then
        Incompatible(audioType, engineType)
      else Compatible
    else Compatible
  }

  /**
   * The streaming rule: adaptive engines accept the two types that `getDataSource`
   * serves through an HTTP data source, network and livestream, for which it
   * builds an HLS, DASH or SmoothStreaming media source.
   */
  predicate AcceptsStreamingTypes(audioType: AudioType, engineType: EngineType) {
    !IsAdaptive(engineType) || audioType == Network || audioType == Livestream
  }

  /** The check and the streaming rule disagree exactly on network sources for adaptive engines. */
  lemma CheckDiffersFromStreamingRuleOnNetworkOnly(audioType: AudioType, engineType: EngineType)
    ensures (Check(audioType, engineType).Compatible? != AcceptsStreamingTypes(audioType, engineType)) <==>
            (audioType == Network && IsAdaptive(engineType))
  {
  }
}
