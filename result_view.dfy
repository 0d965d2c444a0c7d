/** The result screen: a score tier chosen by thresholds at 90 and 70, and
    the emoji and heading that go with it. */
module ResultView {

  function IsPerfect(score: int): bool
  {
    score >= 90
  }

  function IsGood(score: int): bool
  {
    score >= 70 && score < 90
  }

  /** The three tiers, as an independent reference for the two flags. */
  datatype Tier = Perfect | Good | Poor

  function TierOf(score: int): Tier
  {
    if score < 70 then Poor else if score < 90 then Good else Perfect
  }

  /** The flags are exclusive and each marks exactly its tier. */
  lemma FlagsMatchTiers(score: int)
    ensures !(IsPerfect(score) && IsGood(score))
    ensures IsPerfect(score) <==> TierOf(score) == Perfect
    ensures IsGood(score) <==> TierOf(score) == Good
    ensures !IsPerfect(score) && !IsGood(score) <==> TierOf(score) == Poor
  {
  }

  const Masterful: string := "Masterful!"
  const GreatJob: string := "Great Job!"
  const NiceTry: string := "Nice Try!"

  const Trophy: string := "\U{1F3C6}"
  const Clap: string := "\U{1F44F}"
  const Thinking: string := "\U{1F914}"

  function Heading(score: int): string
  {
    if IsPerfect(score) then Masterful else if IsGood(score) then GreatJob else NiceTry
  }

  function Emoji(score: int): string
  {
    if IsPerfect(score) then Trophy else if IsGood(score) then Clap else Thinking
  }

  /** What each tier shows. */
  function TierHeading(t: Tier): string
  {
    match t
    case Perfect => Masterful
    case Good => GreatJob
    case Poor => NiceTry
  }

  function TierEmoji(t: Tier): string
  {
    match t
    case Perfect => Trophy
    case Good => Clap
    case Poor => Thinking
  }

  /** Heading and emoji follow the same tier: each determines the other and
      the tier, and "Nice Try!" shows exactly below 70. */
  lemma HeadingAndEmojiFollowTier(score: int, other: int)
    ensures Heading(score) == TierHeading(TierOf(score))
    ensures Emoji(score) == TierEmoji(TierOf(score))
    ensures Heading(score) == NiceTry <==> score < 70
    ensures Heading(score) == Masterful <==> score >= 90
    ensures Heading(score) == Heading(other) <==> Emoji(score) == Emoji(other)
  {
    assert Masterful != GreatJob && Masterful != NiceTry && GreatJob != NiceTry by {
      assert Masterful[0] != GreatJob[0] && Masterful[0] != NiceTry[0] && GreatJob[0] != NiceTry[0];
    }
    assert Trophy != Clap && Trophy != Thinking && Clap != Thinking by {
      assert Trophy[0] != Clap[0] && Trophy[0] != Thinking[0] && Clap[0] != Thinking[0];
    }
  }
}
