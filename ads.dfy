/** The boundary to the rewarded-ad provider (AdManager.kt): which reward is asked for, and what
    the provider eventually reports. The SDK, loading and threading are not modelled. */
module Ads {

  /** The rewards an ad can grant (`RewardType` in AdManager.kt). */
  datatype RewardType = DoubleCoins | InstantRepair | SpeedBoost | CoinMagnet | Shield | TimeSlow

  /** How one rewarded-ad request ends, as seen through `AdRewardCallback`:
      `NotReady` when `isRewardedAdReady()` is false so the ad is never shown,
      `Rewarded` when `onRewardEarned` fires, `Failed` when `onAdFailed` fires,
      `Dismissed` when the ad is closed without a reward (`onAdClosed(type, false)`). */
  datatype AdOutcome = NotReady | Rewarded | Failed | Dismissed

  /** Whether, and with what value, the caller's `(Boolean) -> Unit` callback was invoked. */
  datatype Reply = NoReply | Replied(success: bool)

  /** The reply every `request*` method of RewardSystem gives for an outcome. */
  function ReplyFor(outcome: AdOutcome): (r: Reply)
    ensures r == Replied(true) <==> outcome == Rewarded
    ensures r == NoReply <==> outcome == Dismissed
  {
    match outcome
    case NotReady => Replied(false)
    case Rewarded => Replied(true)
    case Failed => Replied(false)
    case Dismissed => NoReply
  }
}
