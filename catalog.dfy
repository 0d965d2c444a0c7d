/** The offline corpus of hand-authored tongue-twisters, used whenever the
    remote generator is unavailable or fails. It is one constant list that
    no code changes; its entries carry no repetition count. */
module Catalog {
  import opened Types

  /** The entries of one difficulty group, given as (text, topic) pairs, as
      catalog twisters: the group's difficulty, repetition count absent. */
  function Group(entries: seq<(string, string)>, d: Difficulty): seq<Twister>
  {
    seq(|entries|, i requires 0 <= i < |entries| => Twister(entries[i].0, entries[i].1, d, None))
  }

  // Short, simple sounds.
  const EasyEntries: seq<(string, string)> := [
    ("Red lorry, yellow lorry.",
     "Liquids (L/R)"),
    ("A proper copper coffee pot.",
     "Plosives (P/K)"),
    ("Big bees buzz.",
     "Voicing (B/Z)"),
    ("Sue sees Zoos.",
     "Voicing (S/Z)"),
    ("How now brown cow.",
     "Vowels"),
    ("He threw three free throws.",
     "Fricatives (TH)"),
    ("I scream, you scream, we all scream for ice cream.",
     "Prosody"),
    ("Black back bat.",
     "Clusters (BL)"),
    ("Cheap chip shop chips.",
     "Affricates (CH)"),
    ("Truly rural.",
     "Liquids (R)"),
    ("Willie\U{2019}s really weary.",
     "Glides (W/R)"),
    ("Big black bugs bleed blue-black blood.",
     "Plosives (B/L)"),
    ("Six slippery snails slid slowly seaward.",
     "Sibilance (S)")
  ]

  // Sentences, alternating sounds.
  const MediumEntries: seq<(string, string)> := [
    ("Peter Piper picked a peck of pickled peppers.",
     "Plosives (P)"),
    ("She sells seashells by the seashore.",
     "Fricatives (SH/S)"),
    ("How much wood would a woodchuck chuck if a woodchuck could chuck wood?",
     "Rhythm"),
    ("Fuzzy Wuzzy was a bear. Fuzzy Wuzzy had no hair. Fuzzy Wuzzy wasn't fuzzy, was he?",
     "Fricatives (F/Z)"),
    ("Tom threw Tim three thumbtacks.",
     "Plosives (T)"),
    ("Many mumbling mice are making midnight music in the moonlight.",
     "Nasals (M)"),
    ("Nine nice night nurses nursing nicely.",
     "Nasals (N)"),
    ("Four furious friends fought for the phone.",
     "Fricatives (F)"),
    ("Zebras zig and zebras zag through the zoo zone.",
     "Fricatives (Z)"),
    ("Which witch wished which wicked wish?",
     "Affricates (W/CH)"),
    ("Jolly Jerry juggled juicy jellies.",
     "Affricates (J)"),
    ("Larry\U{2019}s lizard likes leaping leopards.",
     "Liquids (L)"),
    ("Round and round the rugged rock the ragged rascal ran.",
     "Liquids (R)"),
    ("You know New York, you need New York, you know you need unique New York.",
     "Glides (Y/N)"),
    ("Fred fed Fido fried food.",
     "Fricatives (F)"),
    ("The great Greek grape growers grow great Greek grapes.",
     "Clusters (GR)"),
    ("An old owl knows how loud vowels sound.",
     "Vowels"),
    ("Brisk brave brigadiers brandish broad bright blades.",
     "Clusters (BR/BL)")
  ]

  // Complex narratives, tongue fatigue.
  const HardEntries: seq<(string, string)> := [
    ("The sixth sick sheik's sixth sheep's sick.",
     "Sibilance (S/SH/K)"),
    ("Pad kid poured curd pulled cod.",
     "Plosives (P/K/D)"),
    ("Imagine an imaginary menagerie manager managing an imaginary menagerie.",
     "Nasals/Affricates"),
    ("If two witches would watch two watches, which witch would watch which watch?",
     "Logic/W/CH"),
    ("The seething sea ceaseth and thus the seething sea sufficeth us.",
     "Sibilance (S/TH)"),
    ("To begin to toboggan, first buy a toboggan. But don\U{2019}t buy too big a toboggan. Too big a toboggan is too big a toboggan to begin to toboggan.",
     "Plosives (T/B/G)"),
    ("She sells sea shells by the seashore. The shells she sells are surely seashells. So if she sells shells on the seashore, I'm sure she sells seashore shells.",
     "Full Challenge"),
    ("A tree toad loved a she-toad who lived up in a tree. He was a three-toed tree toad, but a two-toed toad was she. The three-toed tree toad tried to win the two-toed she-toad's heart.",
     "Narrative"),
    ("Betty Botter bought some butter but she said the butter's bitter. If I bake this bitter butter, it would make my batter bitter. But a bit of better butter that would make my batter better.",
     "Plosives (B/T)"),
    ("Doctor DooLittle\U{2019}s doctoring developed delightful diagnoses during difficult days. Diagnostically determined, he detected disastrous diseases directly.",
     "Plosives (D)"),
    ("Six slick sisters sit silently sewing shoes in a shoe shop. Suddenly, six slithery snakes slid silently into the shop. The six slick sisters swiftly and silently sewed shut six slippery slithery snakeholes.",
     "Sibilance Story"),
    ("Fred\U{2019}s freight flew fast from Fresno to Framingham. Frightfully fast, Fred's freight flew forward \U{2014} Freight full of frothy fried frogs, five fragile frames, forty flapping flags.",
     "Fricatives (F/FR)"),
    ("Rory the warrior and Roger the worrier were reared wrongly in a rural brewery.",
     "Liquids (R/W)")
  ]

  const EasyTwisters: seq<Twister> := Group(EasyEntries, Easy)
  const MediumTwisters: seq<Twister> := Group(MediumEntries, Medium)
  const HardTwisters: seq<Twister> := Group(HardEntries, Hard)

  /** FALLBACK_TWISTERS: the three groups in catalog order. */
  const FallbackTwisters: seq<Twister> := EasyTwisters + MediumTwisters + HardTwisters

  /** The group of entries of one difficulty. */
  function GroupOf(d: Difficulty): seq<Twister>
  {
    match d
    case Easy => EasyTwisters
    case Medium => MediumTwisters
    case Hard => HardTwisters
  }

  /** Position of a difficulty in the catalog's grouping order. */
  function Rank(d: Difficulty): nat
  {
    match d
    case Easy => 0
    case Medium => 1
    case Hard => 2
  }

  /** Each group holds only entries of its own difficulty. */
  lemma GroupsAreUniform()
    ensures forall t :: t in EasyTwisters ==> t.difficulty == Easy
    ensures forall t :: t in MediumTwisters ==> t.difficulty == Medium
    ensures forall t :: t in HardTwisters ==> t.difficulty == Hard
    ensures |EasyTwisters| == 13 && |MediumTwisters| == 18 && |HardTwisters| == 13
  {
  }

  /** The catalog is grouped: every Easy entry precedes every Medium entry,
      which precedes every Hard entry. */
  lemma CatalogIsGrouped(i: nat, j: nat)
    requires i <= j < |FallbackTwisters|
    ensures Rank(FallbackTwisters[i].difficulty) <= Rank(FallbackTwisters[j].difficulty)
  {
    GroupsAreUniform();
    var e, m := |EasyTwisters|, |EasyTwisters| + |MediumTwisters|;
    assert forall k :: 0 <= k < e ==> FallbackTwisters[k] == EasyTwisters[k];
    assert forall k :: e <= k < m ==> FallbackTwisters[k] == MediumTwisters[k - e];
    assert forall k :: m <= k < |FallbackTwisters| ==> FallbackTwisters[k] == HardTwisters[k - m];
    assert FallbackTwisters[i] in EasyTwisters || FallbackTwisters[i] in MediumTwisters || FallbackTwisters[i] in HardTwisters;
  }

  /** The catalog has 44 entries, and each difficulty is present: the
      first Easy entry is at 0, the first Medium at 13, the first Hard at 31. */
  lemma EveryDifficultyPresent()
    ensures |FallbackTwisters| == 44
    ensures FallbackTwisters[0].difficulty == Easy
    ensures FallbackTwisters[13].difficulty == Medium
    ensures FallbackTwisters[31].difficulty == Hard
  {
    GroupsAreUniform();
    assert FallbackTwisters[13] == MediumTwisters[0];
    assert FallbackTwisters[31] == HardTwisters[0];
  }

  /** Entry 0, the fallback when nothing matches, is the Easy "Red lorry". */
  lemma FirstEntryIsRedLorry()
    ensures FallbackTwisters[0] == Twister("Red lorry, yellow lorry.", "Liquids (L/R)", Easy, None)
  {
    assert FallbackTwisters[0] == EasyTwisters[0];
  }

  /** No entry has an empty text or topic, and none has a repetition count. */
  lemma EntriesAreWellFormed()
    ensures forall t :: t in FallbackTwisters ==> |t.text| > 0 && |t.topic| > 0 && t.repetitionCount == None
  {
    EasyEntriesNonEmpty();
    MediumEntriesNonEmpty();
    HardEntriesNonEmpty();
    forall t | t in FallbackTwisters
      ensures |t.text| > 0 && |t.topic| > 0 && t.repetitionCount == None
    {
      if t in EasyTwisters {
        var i :| 0 <= i < |EasyTwisters| && EasyTwisters[i] == t;
        assert t == Twister(EasyEntries[i].0, EasyEntries[i].1, Easy, None);
      } else if t in MediumTwisters {
        var i :| 0 <= i < |MediumTwisters| && MediumTwisters[i] == t;
        assert t == Twister(MediumEntries[i].0, MediumEntries[i].1, Medium, None);
      } else {
        assert t in HardTwisters;
        var i :| 0 <= i < |HardTwisters| && HardTwisters[i] == t;
        assert t == Twister(HardEntries[i].0, HardEntries[i].1, Hard, None);
      }
    }
  }

  /** Neither component of any pair is empty. */
  ghost predicate NonEmptyPairs(entries: seq<(string, string)>)
  {
    forall i :: 0 <= i < |entries| ==> entries[i].0 != [] && entries[i].1 != []
  }

  lemma EasyEntriesNonEmpty() ensures NonEmptyPairs(EasyEntries) {}
  lemma MediumEntriesNonEmpty() ensures NonEmptyPairs(MediumEntries) {}
  lemma HardEntriesNonEmpty() ensures NonEmptyPairs(HardEntries) {}
}
