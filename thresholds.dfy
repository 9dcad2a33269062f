/** `ThresholdConfig`: the three daily limits and the two package categories, with their defaults. */
module Thresholds {

  datatype ThresholdConfig = ThresholdConfig(
    totalDailyLimitMs: int,
    snsLimitMs: int,
    snsPackages: set<string>,
    videoPackages: set<string>,
    videoLimitMs: int)

  /** Three hours. */
  const DefaultTotalDailyLimitMs: int := 3 * 60 * 60 * 1000

  /** One hour. */
  const DefaultSnsLimitMs: int := 1 * 60 * 60 * 1000

  /** One hour. */
  const DefaultVideoLimitMs: int := 1 * 60 * 60 * 1000

  const DefaultSnsPackages: set<string> := {
    "com.instagram.android",
    "com.twitter.android",
    "com.zhiliaoapp.musically",
    "com.facebook.katana",
    "com.facebook.orca",
    "com.snapchat.android",
    "jp.naver.line.android"
  }

  const DefaultVideoPackages: set<string> := {
    "com.google.android.youtube",
    "com.netflix.mediaclient",
    "com.amazon.avod.thirdpartyclient",
    "tv.abema",
    "jp.tver"
  }

  /** `ThresholdConfig()` with every parameter at its default. */
  const DefaultConfig: ThresholdConfig := ThresholdConfig(
    DefaultTotalDailyLimitMs, DefaultSnsLimitMs, DefaultSnsPackages, DefaultVideoPackages, DefaultVideoLimitMs)

  /** `ThresholdConfig(totalDailyLimitMs = …, snsLimitMs = …, videoLimitMs = …)`: the package sets stay at their defaults. */
  function WithLimits(totalDailyLimitMs: int, snsLimitMs: int, videoLimitMs: int): (c: ThresholdConfig)
    ensures c.totalDailyLimitMs == totalDailyLimitMs && c.snsLimitMs == snsLimitMs && c.videoLimitMs == videoLimitMs
    ensures c.snsPackages == DefaultSnsPackages && c.videoPackages == DefaultVideoPackages
  {
    ThresholdConfig(totalDailyLimitMs, snsLimitMs, DefaultSnsPackages, DefaultVideoPackages, videoLimitMs)
  }

  /** The default limits: 10,800,000 ms in total, 3,600,000 ms each for SNS and video. */
  lemma DefaultLimits()
    ensures DefaultConfig.totalDailyLimitMs == 10800000
    ensures DefaultConfig.snsLimitMs == 3600000 && DefaultConfig.videoLimitMs == 3600000
  {
  }

  /** Seven SNS packages, LINE among them; five video packages. */
  lemma DefaultCategorySizes()
    ensures |DefaultSnsPackages| == 7 && "jp.naver.line.android" in DefaultSnsPackages
    ensures |DefaultVideoPackages| == 5
  {
  }

  /** No package is both SNS and video, so under the defaults a usage counts toward at most one category. */
  lemma DefaultCategoriesDisjoint()
    ensures DefaultSnsPackages !! DefaultVideoPackages
  {
  }
}
