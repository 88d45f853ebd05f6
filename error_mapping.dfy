/**
 * Classification of an engine failure into the plugin's three error kinds
 * (`PlayerImplemExoPlayer.mapError`).
 */
module ErrorMapping {
  import opened Optional

  /** The nested cause of an `ExoPlaybackException`, as far as `mapError` looks at it. */
  datatype Cause =
    | NoCause
    | InvalidResponseCode(responseCode: int)  // HttpDataSource.InvalidResponseCodeException
    | OtherCause

  /** A raw throwable: either an ExoPlayer playback exception or any other throwable. */
  datatype RawError =
    | PlaybackException(cause: Cause)
    | OtherThrowable(message: Option<string>)

  /** `AssetAudioPlayerThrowable`: every kind keeps the throwable it wraps. */
  datatype PlayerThrowable =
    | UnreachableException(origin: RawError)
    | NetworkError(origin: RawError)
    | PlayerError(origin: RawError)

  const UnableToConnect: string := "unable to connect"

  /** Case folding of one character; only the ASCII letters are folded. */
  function Fold(c: char): char {
    if 'A' <= c <= 'Z' then (c as int + 32) as char else c
  }

  predicate SameIgnoringCase(a: char, b: char) {
    Fold(a) == Fold(b)
  }

  predicate EqualIgnoringCase(s: string, t: string) {
    |s| == |t| && forall k :: 0 <= k < |s| ==> SameIgnoringCase(s[k], t[k])
  }

  /** `p` occurs in `s` at index `i`, ignoring case (Kotlin's `regionMatches(ignoreCase = true)`). */
  predicate RegionMatches(s: string, i: int, p: string) {
    0 <= i && i + |p| <= |s| &&
    forall k :: 0 <= k < |p| ==> SameIgnoringCase(s[i + k], p[k])
  }

  /** The search behind `indexOf(p, ignoreCase = true)`, from index `i` on. */
  function OccursFrom(s: string, p: string, i: nat): (r: bool)
    ensures r <==> exists j :: i <= j && RegionMatches(s, j, p)
    decreases |s| - i
  {
    if i + |p| > |s| then false
    else RegionMatches(s, i, p) || OccursFrom(s, p, i + 1)
  }

  /** Kotlin's `s.contains(p, ignoreCase = true)`. */
  function ContainsIgnoreCase(s: string, p: string): (r: bool)
    ensures r <==> exists i :: RegionMatches(s, i, p)
  {
    OccursFrom(s, p, 0)
  }

  /** `t.message?.contains("unable to connect", true) == true` */
  predicate MentionsUnableToConnect(message: Option<string>) {
    message.Some? && ContainsIgnoreCase(message.value, UnableToConnect)
  }

  /** The cause is an HTTP invalid-response-code exception with a code of at least 400. */
  predicate IsHttpFailure(t: RawError) {
    t.PlaybackException? && t.cause.InvalidResponseCode? && t.cause.responseCode >= 400
  }

  function MapError(t: RawError): (r: PlayerThrowable)
    ensures r.origin == t
    ensures r.UnreachableException? <==> IsHttpFailure(t)
    ensures t.PlaybackException? ==> !r.PlayerError?
    ensures r.PlayerError? <==> t.OtherThrowable? && !MentionsUnableToConnect(t.message)
  {
    match t
    case PlaybackException(cause) =>
      if cause.InvalidResponseCode? && cause.responseCode >= 400 then UnreachableException(t)
      else NetworkError(t)
    case OtherThrowable(message) =>
      if message.Some? && ContainsIgnoreCase(message.value, UnableToConnect) then NetworkError(t)
      else PlayerError(t)
  }

  /** A message holding the phrase, written in any case, anywhere, is a network error. */
  lemma PhraseAnywhereIsNetworkError(prefix: string, phrase: string, suffix: string)
    requires EqualIgnoringCase(phrase, UnableToConnect)
    ensures MapError(OtherThrowable(Some(prefix + phrase + suffix))) ==
            NetworkError(OtherThrowable(Some(prefix + phrase + suffix)))
  {
    var m := prefix + phrase + suffix;
    forall k | 0 <= k < |UnableToConnect|
      ensures SameIgnoringCase(m[|prefix| + k], UnableToConnect[k])
    {
      assert m[|prefix| + k] == phrase[k];
    }
    assert RegionMatches(m, |prefix|, UnableToConnect);
  }

  /** Changing the case of a message never changes how it is classified. */
  lemma ClassificationIgnoresCase(m1: string, m2: string)
    requires EqualIgnoringCase(m1, m2)
    ensures MapError(OtherThrowable(Some(m1))).NetworkError? <==>
            MapError(OtherThrowable(Some(m2))).NetworkError?
  {
    forall i, p | RegionMatches(m1, i, p) ensures RegionMatches(m2, i, p) {
      forall k | 0 <= k < |p| ensures SameIgnoringCase(m2[i + k], p[k]) {
        assert SameIgnoringCase(m1[i + k], m2[i + k]);
      }
    }
    forall i, p | RegionMatches(m2, i, p) ensures RegionMatches(m1, i, p) {
      forall k | 0 <= k < |p| ensures SameIgnoringCase(m1[i + k], p[k]) {
        assert SameIgnoringCase(m1[i + k], m2[i + k]);
      }
    }
  }

  /** The classification of a few typical inputs. */
  lemma ClassificationExamples()
    ensures MapError(PlaybackException(InvalidResponseCode(404))).UnreachableException?
    ensures MapError(PlaybackException(InvalidResponseCode(399))).NetworkError?
    ensures MapError(PlaybackException(OtherCause)).NetworkError?
    ensures MapError(OtherThrowable(Some("Unable to connect"))).NetworkError?
    ensures MapError(OtherThrowable(None)).PlayerError?
  {
    var m := "Unable to connect";
    assert forall k :: 0 <= k < |m| ==> SameIgnoringCase(m[k], UnableToConnect[k]);
    assert RegionMatches(m, 0, UnableToConnect);
  }
}
