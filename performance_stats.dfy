/**
 * Per-question performance statistics of the quiz games
 * (src/utils/performanceStats.ts).
 *
 * The statistics are a flat map from "<gameId>|<question>" to a pair of
 * counters, kept as serialized text under one key of the browser's local
 * storage. Recording an outcome reads the whole map, bumps one entry and
 * writes the whole map back. The JSON encoder and decoder are not modelled:
 * a tracker is given them as two functions, and the decoder answers `None`
 * where parsing would throw.
 */
module PerformanceStats {
  import opened Wrappers

  /** How often a question was shown and how often it was answered right. */
  datatype AnswerStat = AnswerStat(seen: int, correct: int)

  type AnswerStats = map<string, AnswerStat>

  /** The local-storage key the serialized statistics live under. */
  const StorageKey := "koine:question-stats:v1"

  /** The separator between game identifier and question text in a key. */
  const Separator := '|'

  /** A statistic whose counters make sense: never negative, never more
      right answers than showings. */
  predicate Consistent(s: AnswerStat) {
    0 <= s.correct <= s.seen
  }

  predicate AllConsistent(stats: AnswerStats) {
    forall k :: k in stats ==> Consistent(stats[k])
  }

  /** The statistic of a question that was never recorded. */
  function DefaultStat(): (s: AnswerStat)
    ensures Consistent(s) && s.seen == 0
  {
    AnswerStat(0, 0)
  }

  // ---------------------------------------------------------------------------
  // Keys

  /** The map key of a question of a game. */
  function BuildStatKey(gameId: string, question: string): (key: string)
    ensures |key| == |gameId| + 1 + |question|
    ensures key[..|gameId|] == gameId && key[|gameId|] == Separator
    ensures key[|gameId| + 1..] == question
  {
    gameId + [Separator] + question
  }

  /** The position of the first separator in `s`, if there is one. */
  function FirstSeparator(s: string): (r: Option<nat>)
    ensures r.None? <==> Separator !in s
    ensures r.Some? ==> r.value < |s| && s[r.value] == Separator && Separator !in s[..r.value]
  {
    if s == [] then None
    else if s[0] == Separator then Some(0)
    else match FirstSeparator(s[1..])
      case None => None
      case Some(i) =>
        assert s[..i + 1] == [s[0]] + s[1..][..i];
        Some(i + 1)
  }

  /** Splits a key at its first separator into game identifier and question. */
  function SplitStatKey(key: string): (r: Option<(string, string)>)
    ensures r.None? <==> Separator !in key
    ensures r.Some? ==> Separator !in r.value.0
  {
    match FirstSeparator(key)
    case None => None
    case Some(i) => Some((key[..i], key[i + 1..]))
  }

  /** A key built from a game identifier without a separator splits back into
      the identifier and the question it was built from. */
  lemma StatKeyRoundTrip(gameId: string, question: string)
    requires Separator !in gameId
    ensures SplitStatKey(BuildStatKey(gameId, question)) == Some((gameId, question))
  {
  }

  /** Every key that splits is the key of the parts it splits into. */
  lemma StatKeySplitInverse(key: string)
    requires Separator in key
    ensures SplitStatKey(key).Some?
    ensures BuildStatKey(SplitStatKey(key).value.0, SplitStatKey(key).value.1) == key
  {
  }

  /** Two questions of games whose identifiers hold no separator share a key
      only when both the games and the questions are the same. */
  lemma StatKeyInjective(g1: string, q1: string, g2: string, q2: string)
    requires Separator !in g1 && Separator !in g2
    ensures BuildStatKey(g1, q1) == BuildStatKey(g2, q2) <==> g1 == g2 && q1 == q2
  {
  }

  /** Without that restriction keys are ambiguous: a separator inside a game
      identifier lets two different questions share one entry. */
  lemma StatKeyAmbiguous()
    ensures BuildStatKey("a|b", "c") == BuildStatKey("a", "b|c")
  {
  }

  // ---------------------------------------------------------------------------
  // The read-modify-write of one outcome, on values

  /** The statistics after one outcome for `key`: the entry is created as the
      default statistic if absent, `seen` grows by one, `correct` grows by one
      when the answer was right, and the map is written back. */
  function Record(stats: AnswerStats, key: string, isCorrect: bool): (r: AnswerStats)
    ensures r.Keys == stats.Keys + {key}
    ensures key !in stats ==> r[key] == AnswerStat(1, if isCorrect then 1 else 0)
    ensures key in stats ==> r[key].seen == stats[key].seen + 1
    ensures key in stats ==> r[key].correct == stats[key].correct + (if isCorrect then 1 else 0)
    ensures forall k :: k in stats && k != key ==> r[k] == stats[k]
  {
    var current := StatOf(stats, key);
    var bumped := current.(seen := current.seen + 1);
    var scored := if isCorrect then bumped.(correct := bumped.correct + 1) else bumped;
    stats[key := scored]
  }

  /** Recording keeps every statistic consistent, the new one included. */
  lemma RecordKeepsConsistent(stats: AnswerStats, key: string, isCorrect: bool)
    requires AllConsistent(stats)
    ensures AllConsistent(Record(stats, key, isCorrect))
  {
  }

  /** Recording never makes `seen` or `correct` of any key smaller. */
  lemma RecordIsMonotone(stats: AnswerStats, key: string, isCorrect: bool, k: string)
    requires k in stats
    ensures k in Record(stats, key, isCorrect)
    ensures Record(stats, key, isCorrect)[k].seen >= stats[k].seen
    ensures Record(stats, key, isCorrect)[k].correct >= stats[k].correct
  {
  }

  /** The statistic stored for `key`, or the default one. */
  function StatOf(stats: AnswerStats, key: string): AnswerStat {
    if key in stats then stats[key] else DefaultStat()
  }

  /** The statistics after a series of outcomes for one key, oldest first. */
  function RecordAll(stats: AnswerStats, key: string, outcomes: seq<bool>): AnswerStats
    decreases |outcomes|
  {
    if outcomes == [] then stats
    else RecordAll(Record(stats, key, outcomes[0]), key, outcomes[1..])
  }

  /** The number of right answers in a series of outcomes. */
  function CountCorrect(outcomes: seq<bool>): (n: nat)
    ensures n <= |outcomes|
  {
    if outcomes == [] then 0
    else (if outcomes[0] then 1 else 0) + CountCorrect(outcomes[1..])
  }

  /** After N outcomes of which k were right, `key` has been seen N more times
      and answered right k more times; every other entry is untouched. */
  lemma {:induction false} RecordAllTally(stats: AnswerStats, key: string, outcomes: seq<bool>)
    decreases |outcomes|
    ensures var r := RecordAll(stats, key, outcomes);
      && r.Keys == stats.Keys + (if outcomes == [] then {} else {key})
      && StatOf(r, key) == AnswerStat(StatOf(stats, key).seen + |outcomes|,
                                      StatOf(stats, key).correct + CountCorrect(outcomes))
      && (forall k :: k in stats && k != key ==> r[k] == stats[k])
  {
    if outcomes != [] {
      var next := Record(stats, key, outcomes[0]);
      RecordAllTally(next, key, outcomes[1..]);
    }
  }

  /** Starting from a key never recorded, N outcomes with k right answers
      leave exactly {seen: N, correct: k} under that key. */
  lemma RecordAllFromAbsent(stats: AnswerStats, key: string, outcomes: seq<bool>)
    requires key !in stats && outcomes != []
    ensures key in RecordAll(stats, key, outcomes)
    ensures RecordAll(stats, key, outcomes)[key] == AnswerStat(|outcomes|, CountCorrect(outcomes))
  {
    RecordAllTally(stats, key, outcomes);
  }

  /** The count of right answers depends only on the multiset of outcomes. */
  lemma {:induction false} CountCorrectIsMultiplicity(outcomes: seq<bool>)
    ensures CountCorrect(outcomes) == multiset(outcomes)[true]
  {
    if outcomes != [] {
      CountCorrectIsMultiplicity(outcomes[1..]);
      assert outcomes == [outcomes[0]] + outcomes[1..];
    }
  }

  /** The order of the outcomes does not matter: any reordering of the same
      outcomes leaves the same statistics. */
  lemma RecordAllOrderIrrelevant(stats: AnswerStats, key: string, o1: seq<bool>, o2: seq<bool>)
    requires multiset(o1) == multiset(o2)
    ensures RecordAll(stats, key, o1) == RecordAll(stats, key, o2)
  {
    assert |o1| == |multiset(o1)| == |multiset(o2)| == |o2|;
    RecordAllTally(stats, key, o1);
    RecordAllTally(stats, key, o2);
    CountCorrectIsMultiplicity(o1);
    CountCorrectIsMultiplicity(o2);
  }

  // ---------------------------------------------------------------------------
  // Storage

  /** The decoder undoes the encoder, and no encoding is the empty string
      (which storage reads treat as absent). */
  ghost predicate RoundTrips(decode: string -> Option<AnswerStats>, encode: AnswerStats -> string) {
    forall m :: encode(m) != "" && decode(encode(m)) == Some(m)
  }

  /** The statistics a storage state reads as: nothing when there is no
      browser window, when the key is missing or holds the empty string, or
      when its text does not decode; otherwise the decoded map. */
  function LoadFrom(window: Option<map<string, string>>, decode: string -> Option<AnswerStats>)
    : (stats: AnswerStats)
    ensures window.None? ==> stats == map[]
    ensures window.Some? && StorageKey !in window.value ==> stats == map[]
    ensures window.Some? && StorageKey in window.value && window.value[StorageKey] == "" ==> stats == map[]
    ensures window.Some? && StorageKey in window.value && decode(window.value[StorageKey]).None? ==> stats == map[]
    ensures (window.Some? && StorageKey in window.value && window.value[StorageKey] != "" &&
             decode(window.value[StorageKey]).Some?) ==> stats == decode(window.value[StorageKey]).value
  {
    if window.None? then map[]
    else if StorageKey !in window.value || window.value[StorageKey] == "" then map[]
    else match decode(window.value[StorageKey])
      case None => map[]
      case Some(stats) => stats
  }

  /** The storage state after writing `stats`: without a browser window
      nothing is written; otherwise only the statistics key changes. */
  function SaveTo(window: Option<map<string, string>>, encode: AnswerStats -> string, stats: AnswerStats)
    : (w: Option<map<string, string>>)
    ensures w.None? <==> window.None?
    ensures w.Some? ==> w.value.Keys == window.value.Keys + {StorageKey}
    ensures w.Some? ==> w.value[StorageKey] == encode(stats)
    ensures w.Some? ==> forall k :: k in window.value && k != StorageKey ==> w.value[k] == window.value[k]
  {
    if window.None? then None else Some(window.value[StorageKey := encode(stats)])
  }

  /** Reading back what was written gives the written statistics, or nothing
      when there is no browser window. */
  lemma LoadAfterSave(window: Option<map<string, string>>, decode: string -> Option<AnswerStats>,
                      encode: AnswerStats -> string, stats: AnswerStats)
    requires RoundTrips(decode, encode)
    ensures LoadFrom(SaveTo(window, encode, stats), decode) == if window.Some? then stats else map[]
  {
  }

  /** The statistics store of one browser profile. */
  class StatsTracker {
    /** Parsing of the stored text; `None` where parsing fails. */
    const decode: string -> Option<AnswerStats>
    /** Serialization of a statistics map to text. */
    const encode: AnswerStats -> string
    /** The browser's local storage, or `None` outside a browser. */
    var window: Option<map<string, string>>

    ghost predicate Valid() {
      RoundTrips(decode, encode)
    }

    /** The statistics as the next load would read them. */
    function Stats(): AnswerStats
      reads this
    {
      LoadFrom(window, decode)
    }

    constructor (decode: string -> Option<AnswerStats>, encode: AnswerStats -> string,
                 window: Option<map<string, string>>)
      requires RoundTrips(decode, encode)
      ensures Valid()
      ensures this.decode == decode && this.encode == encode && this.window == window
    {
      this.decode := decode;
      this.encode := encode;
      this.window := window;
    }

    /** Reads the statistics: a parse failure is caught, and missing storage,
        missing text and empty text read as empty (see `LoadFrom`). */
    method LoadAnswerStats() returns (stats: AnswerStats)
      ensures stats == Stats()
    {
      if window.None? {
        return map[];
      }
      var raw: Option<string> := if StorageKey in window.value then Some(window.value[StorageKey]) else None;
      if raw.None? || raw.value == "" {
        return map[];
      }
      match decode(raw.value) {
        case None => stats := map[];
        case Some(parsed) => stats := parsed;
      }
    }

    /** Writes the statistics back, replacing the stored text; does nothing
        outside a browser. */
    method SaveAnswerStats(stats: AnswerStats)
      requires Valid()
      modifies this
      ensures Valid()
      ensures window == SaveTo(old(window), encode, stats)
      ensures old(window).Some? ==> Stats() == stats
      ensures old(window).None? ==> Stats() == map[]
    {
      if window.None? {
        return;
      }
      window := Some(window.value[StorageKey := encode(stats)]);
      LoadAfterSave(old(window), decode, encode, stats);
    }

    /** Records one outcome of a question of a game. */
    method RecordQuestionOutcome(gameId: string, question: string, isCorrectWithoutMiss: bool)
      requires Valid()
      modifies this
      ensures Valid()
      ensures window == SaveTo(old(window), encode,
                               Record(old(Stats()), BuildStatKey(gameId, question), isCorrectWithoutMiss))
      ensures old(window).Some? ==>
                Stats() == Record(old(Stats()), BuildStatKey(gameId, question), isCorrectWithoutMiss)
      ensures old(window).None? ==> window.None? && Stats() == map[]
      ensures AllConsistent(old(Stats())) ==> AllConsistent(Stats())
    {
      var stats := LoadAnswerStats();
      var key := BuildStatKey(gameId, question);
      var current := if key in stats then stats[key] else DefaultStat();
      current := current.(seen := current.seen + 1);
      if isCorrectWithoutMiss {
        current := current.(correct := current.correct + 1);
      }
      stats := stats[key := current];
      SaveAnswerStats(stats);
      if AllConsistent(old(Stats())) {
        RecordKeepsConsistent(old(Stats()), key, isCorrectWithoutMiss);
      }
    }
  }

  /** A caller's view: in a browser whose store starts empty, one right and
      then one wrong answer to the same question leave {seen: 2, correct: 1}
      under the key "second-declension-flash-cards|ἄνθρωπος". */
  method TwoOutcomes(t: StatsTracker)
    requires t.Valid() && t.window == Some(map[])
    modifies t
    ensures BuildStatKey("second-declension-flash-cards", "ἄνθρωπος") in t.Stats()
    ensures t.Stats()[BuildStatKey("second-declension-flash-cards", "ἄνθρωπος")] == AnswerStat(2, 1)
  {
    t.RecordQuestionOutcome("second-declension-flash-cards", "ἄνθρωπος", true);
    t.RecordQuestionOutcome("second-declension-flash-cards", "ἄνθρωπος", false);
  }
}
