/** The five-point mood scale of MindfulMe: each level carries a numeric
    value, an emoji and a description, and `fromValue` maps a value back
    to its level. */
module MoodLevels {
  import opened Collections

  /** The levels, in declaration order. */
  datatype MoodLevel = VerySad | Sad | Neutral | Happy | VeryHappy

  /** Kotlin's `MoodLevel.entries`: every level, in declaration order. */
  const Entries: seq<MoodLevel> := [VerySad, Sad, Neutral, Happy, VeryHappy]

  /** The level's position in declaration order (Kotlin's `ordinal`). */
  function Ordinal(m: MoodLevel): (i: nat)
    ensures i < |Entries| && Entries[i] == m
  {
    match m
    case VerySad => 0
    case Sad => 1
    case Neutral => 2
    case Happy => 3
    case VeryHappy => 4
  }

  /** The numeric rating stored for the level. */
  function Value(m: MoodLevel): (v: int)
    ensures v == Ordinal(m) + 1
    ensures 1 <= v <= 5
  {
    match m
    case VerySad => 1
    case Sad => 2
    case Neutral => 3
    case Happy => 4
    case VeryHappy => 5
  }

  /** The emoji shown for the level; a display constant. */
  function Emoji(m: MoodLevel): string
  {
    match m
    case VerySad => "\U{1F622}"
    case Sad => "\U{1F614}"
    case Neutral => "\U{1F610}"
    case Happy => "\U{1F642}"
    case VeryHappy => "\U{1F604}"
  }

  /** The text shown for the level; a display constant. */
  function Description(m: MoodLevel): string
  {
    match m
    case VerySad => "Very Sad"
    case Sad => "Sad"
    case Neutral => "Neutral"
    case Happy => "Happy"
    case VeryHappy => "Very Happy"
  }

  /** `MoodLevel.fromValue(value)`: the first entry whose value equals
      `value`; `None` where the Kotlin code throws. */
  function FromValue(value: int): (r: Option<MoodLevel>)
    ensures r.Some? <==> 1 <= value <= 5
    ensures r.Some? ==> Value(r.value) == value
  {
    First(Entries, m => Value(m) == value)
  }

  /** Kotlin's `compareTo` on enum entries: by declaration order. */
  function CompareTo(a: MoodLevel, b: MoodLevel): int
  {
    Ordinal(a) - Ordinal(b)
  }

  /** `entries` lists every level exactly once. */
  lemma EntriesListEveryLevelOnce(m: MoodLevel)
    ensures m in Entries
    ensures forall i :: 0 <= i < |Entries| && Entries[i] == m ==> i == Ordinal(m)
  {
  }

  /** No two levels share a value. */
  lemma ValueInjective(a: MoodLevel, b: MoodLevel)
    ensures Value(a) == Value(b) <==> a == b
  {
  }

  /** The values of the levels are exactly 1 to 5. */
  lemma ValuesAreOneToFive()
    ensures (set m | m in Entries :: Value(m)) == {1, 2, 3, 4, 5}
  {
    var values := set m | m in Entries :: Value(m);
    forall v | v in {1, 2, 3, 4, 5} ensures v in values {
      var m := Entries[v - 1];
      assert Value(m) == v;
    }
  }

  /** `fromValue` inverts `value`, in both directions: it yields `m` exactly
      when `m`'s value is the argument. The entry `first` finds is the only
      one that matches. */
  lemma FromValueInvertsValue(value: int, m: MoodLevel)
    ensures FromValue(value) == Some(m) <==> Value(m) == value
  {
  }

  /** Round trip: looking a level up by its own value yields that level. */
  lemma FromValueOfValue(m: MoodLevel)
    ensures FromValue(Value(m)) == Some(m)
  {
  }

  /** `fromValue` throws exactly when no level has the given value, which
      is exactly when the value lies outside 1..5. */
  lemma FromValueFailsExactlyOutsideScale(value: int)
    ensures FromValue(value) == None <==> forall m :: Value(m) != value
    ensures FromValue(value) == None <==> value < 1 || value > 5
  {
  }

  /** The lookup table: 1 to 5 name the levels in declaration order, with
      their emoji and descriptions. */
  lemma FromValueTable()
    ensures FromValue(1) == Some(VerySad) && Emoji(VerySad) == "\U{1F622}" && Description(VerySad) == "Very Sad"
    ensures FromValue(2) == Some(Sad) && Emoji(Sad) == "\U{1F614}" && Description(Sad) == "Sad"
    ensures FromValue(3) == Some(Neutral) && Emoji(Neutral) == "\U{1F610}" && Description(Neutral) == "Neutral"
    ensures FromValue(4) == Some(Happy) && Emoji(Happy) == "\U{1F642}" && Description(Happy) == "Happy"
    ensures FromValue(5) == Some(VeryHappy) && Emoji(VeryHappy) == "\U{1F604}" && Description(VeryHappy) == "Very Happy"
  {
  }

  /** Comparing levels by declaration order agrees with comparing their
      values. */
  lemma CompareToAgreesWithValue(a: MoodLevel, b: MoodLevel)
    ensures CompareTo(a, b) < 0 <==> Value(a) < Value(b)
    ensures CompareTo(a, b) == 0 <==> a == b
    ensures CompareTo(a, b) > 0 <==> Value(a) > Value(b)
  {
  }
}
