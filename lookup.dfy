/** The fixed lookup tables that name guild features and verification levels. */
module Lookup {

  /** `verify`: verification level names. */
  const VerifyNames: map<string, string> := map[
    "none" := "None",
    "low" := "Low",
    "medium" := "Medium",
    "high" := "High",
    "extreme" := "Extreme"]

  /** `features`: guild feature names. */
  const FeatureNames: map<string, string> := map[
    "VIP_REGIONS" := "VIP Voice Servers",
    "VANITY_URL" := "Vanity URL",
    "INVITE_SPLASH" := "Splash Invite",
    "VERIFIED" := "Verified",
    "PARTNERED" := "Partnered",
    "MORE_EMOJI" := "More Emojis",
    "DISCOVERABLE" := "Server Discovery",
    "FEATURABLE" := "Featurable",
    "COMMERCE" := "Commerce",
    "PUBLIC" := "Public",
    "NEWS" := "News Channels",
    "BANNER" := "Banner Image",
    "ANIMATED_ICON" := "Animated Icon",
    "PUBLIC_DISABLED" := "Public disabled",
    "MEMBER_LIST_DISABLED" := "Member list disabled",
    "ENABLED_DISCOVERABLE_BEFORE" := "Was in Server Discovery",
    "WELCOME_SCREEN_ENABLED" := "Welcome Screen"]

  /** `table.get(key) or 'Unknown'`. */
  function LabelIn(table: map<string, string>, key: string): string
  {
    if key in table then table[key] else "Unknown"
  }

  function FeatureLabel(f: string): string
  {
    LabelIn(FeatureNames, f)
  }

  function VerifyLabel(v: string): string
  {
    LabelIn(VerifyNames, v)
  }

  /** No table names anything "Unknown", so a key falls under "Unknown" exactly when the
      table does not know it, and a known key gets the table's own name. */
  lemma UnknownIffNotInTable(key: string)
    ensures FeatureLabel(key) == "Unknown" <==> key !in FeatureNames
    ensures key in FeatureNames ==> FeatureLabel(key) == FeatureNames[key]
    ensures VerifyLabel(key) == "Unknown" <==> key !in VerifyNames
    ensures key in VerifyNames ==> VerifyLabel(key) == VerifyNames[key]
  {
    assert "Unknown" !in FeatureNames.Values;
    assert "Unknown" !in VerifyNames.Values;
  }
}
