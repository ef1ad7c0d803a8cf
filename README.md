# MindfulMe mood scale in Dafny

This project models the mood scale of the MindfulMe Android app
(`MoodLevel.kt`). It is a closed enum of five levels, `VERY_SAD`, `SAD`,
`NEUTRAL`, `HAPPY` and `VERY_HAPPY`. Each level carries a fixed
`(value, emoji, description)` triple. The companion function
`fromValue(value)` looks a level up by its value: it scans `entries` in
declaration order with `first { it.value == value }`, and it throws
`NoSuchElementException` when no level matches.

- `collections.dfy` (module `Collections`): `Option` and `First`. `First`
  models Kotlin's `Iterable.first(predicate)` on a sequence. `None` stands
  for the exception.
- `mood_level.dfy` (module `MoodLevels`): the `MoodLevel` datatype, the
  declaration-order `Entries`, the `Ordinal`, `Value`, `Emoji` and
  `Description` accessors, `FromValue`, the enum's `CompareTo`, and the
  lemmas about them.

## Model

| member | source | states |
|---|---|---|
| `Collections.First` | app/src/main/java/id/jabbar/mindfulme/domain/model/MoodLevel.kt:11 | `first` yields nothing exactly when no element satisfies the predicate; otherwise it yields the element at the first position that does |
| `Collections.FirstOfUniqueMatch` | app/src/main/java/id/jabbar/mindfulme/domain/model/MoodLevel.kt:11 | when exactly one element satisfies the predicate, `first` yields that element |
| `MoodLevels.Ordinal` | app/src/main/java/id/jabbar/mindfulme/domain/model/MoodLevel.kt:3-8 | a level's ordinal is its index in `entries`, which follows declaration order |
| `MoodLevels.Value` | app/src/main/java/id/jabbar/mindfulme/domain/model/MoodLevel.kt:4-8 | every level's value is its ordinal plus one, so it lies in 1..5 |
| `MoodLevels.FromValue` | app/src/main/java/id/jabbar/mindfulme/domain/model/MoodLevel.kt:11 | `fromValue` succeeds exactly for arguments in 1..5, and the level it returns has the argument as its value |
| `MoodLevels.EntriesListEveryLevelOnce` | app/src/main/java/id/jabbar/mindfulme/domain/model/MoodLevel.kt:3-8 | every level occurs in `entries`, and only at its ordinal |
| `MoodLevels.ValueInjective` | app/src/main/java/id/jabbar/mindfulme/domain/model/MoodLevel.kt:4-8 | two levels have the same value exactly when they are the same level |
| `MoodLevels.ValuesAreOneToFive` | app/src/main/java/id/jabbar/mindfulme/domain/model/MoodLevel.kt:4-8 | the set of values of the levels is exactly {1, 2, 3, 4, 5} |
| `MoodLevels.FromValueInvertsValue` | app/src/main/java/id/jabbar/mindfulme/domain/model/MoodLevel.kt:4-11 | `fromValue(v)` returns `m` exactly when `m.value == v`; the entry `first` finds is the only match |
| `MoodLevels.FromValueOfValue` | app/src/main/java/id/jabbar/mindfulme/domain/model/MoodLevel.kt:4-11 | round trip: `fromValue(m.value) == m` for every level |
| `MoodLevels.FromValueFailsExactlyOutsideScale` | app/src/main/java/id/jabbar/mindfulme/domain/model/MoodLevel.kt:11 | `fromValue(v)` throws exactly when no level has value `v`, which is exactly when `v` lies outside 1..5 |
| `MoodLevels.FromValueTable` | app/src/main/java/id/jabbar/mindfulme/domain/model/MoodLevel.kt:4-11 | `fromValue` maps 1 to 5 to `VERY_SAD`, `SAD`, `NEUTRAL`, `HAPPY` and `VERY_HAPPY`, and each of these has its declared emoji and description |
| `MoodLevels.CompareToAgreesWithValue` | app/src/main/java/id/jabbar/mindfulme/domain/model/MoodLevel.kt:3-8 | comparing levels by declaration order gives the same answer as comparing their values; levels compare equal only when they are the same |

## Left out

- The `NoSuchElementException` of `fromValue` is modelled as a `None` result, not as an exception that propagates.
- Kotlin's 32-bit `Int` is modelled as an unbounded `int`. The lookup only compares values, so no wrap-around can occur.
- `Emoji` and `Description` are display constants. Each is stated for every level in `FromValueTable`. Nothing is proved about the characters of the strings. Each emoji is one Unicode code point.
- The `Mood` and `Quote` records hold data and have no methods. The 1–5 range of `Mood.moodLevel` and its `yyyy-MM-dd` date format appear only as comments and are never checked, so they are not modelled. The default `timestamp` reads the clock.
- `MoodRepository` and `QuoteRepository` are interfaces with no implementation. Their behaviour (range queries, quote of the day, `toggleFavorite`) is not defined in the code, and it rests on database and network I/O.
- `app/build.gradle.kts` is build configuration and holds no logic.
