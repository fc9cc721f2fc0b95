/** The rule engine of the diagnostic agent: counting known log patterns
    against their thresholds, bucketing log severities, classifying anomaly
    severity, choosing a root cause, and assembling recommendations and
    evidence. The collectors (Azure Monitor queries, sample metrics), the
    statistics (mean, standard deviation, clustering), the regular-expression
    engine and the OpenAI call are inputs: a log list, a list of anomalies, a
    list of correlations, a `matches` predicate and the AI's answer. The agent
    object only carries configuration, so its operations are module-level
    functions and methods. */
module DiagnosticAgent {
  import opened Base

  /** The severities a pattern or an anomaly carries. */
  datatype Level = Low | Medium | High | Critical

  function LevelName(l: Level): string {
    match l
    case Low => "low"
    case Medium => "medium"
    case High => "high"
    case Critical => "critical"
  }

  function LevelRank(l: Level): nat {
    match l
    case Low => 0
    case Medium => 1
    case High => 2
    case Critical => 3
  }

  // ---------------------------------------------------------------------
  // Known log patterns

  /** One entry of `known_patterns`: the regular expression, the number of
      matching log lines that makes the pattern significant, and its
      severity and category. */
  datatype KnownPattern = KnownPattern(name: string, regex: string, threshold: nat, severity: Level, category: string)

  /** `_load_known_patterns`, in the dictionary's order. */
  const KnownPatterns: seq<KnownPattern> := [
    KnownPattern("high_cpu", "CPU usage.*?(\\d+)%", 80, High, "performance"),
    KnownPattern("memory_leak", "OutOfMemoryError|Memory usage.*?(\\d+)%", 90, Critical, "memory"),
    KnownPattern("database_timeout", "database.*?timeout|connection.*?timeout", 1, High, "database"),
    KnownPattern("api_errors", "HTTP.*?5\\d\\d|Internal Server Error", 10, Medium, "api"),
    KnownPattern("disk_space", "disk.*?full|no space left", 1, Critical, "storage")
  ]

  /** No two entries share a name: the table is a dictionary. */
  predicate KeyedByName(known: seq<KnownPattern>) {
    forall j, k :: 0 <= j < k < |known| ==> known[j].name != known[k].name
  }

  /** The position of a pattern name in the table, or the table's length
      for a name that is not there. */
  function IndexOf(known: seq<KnownPattern>, name: string): (k: nat)
    ensures k <= |known|
    ensures k < |known| ==> known[k].name == name
    ensures forall j :: 0 <= j < k ==> known[j].name != name
  {
    if known == [] then 0
    else if known[0].name == name then 0
    else 1 + IndexOf(known[1..], name)
  }

  /** Each pattern's name leads back to its own entry. */
  lemma IndexOfName(known: seq<KnownPattern>, k: nat)
    requires KeyedByName(known) && k < |known|
    ensures IndexOf(known, known[k].name) == k
  {
  }

  lemma KnownPatternsKeyed()
    ensures KeyedByName(KnownPatterns)
  {
  }

  // ---------------------------------------------------------------------
  // Matching log lines

  /** A log row as the collector returns it: `severity` and `message` may be
      missing; timestamps are whole seconds. */
  datatype LogEntry = LogEntry(timestamp: int, severity: Option<int>, message: Option<string>)

  /** What is recorded per match in `pattern_counts`. */
  datatype Occurrence = Occurrence(timestamp: int, message: string)

  /** `re.search(pattern, message, re.IGNORECASE)`, supplied from outside. */
  type Matcher = (string, string) -> bool

  function MessageOf(e: LogEntry): string {
    e.message.GetOr("")
  }

  function OccurrenceOf(e: LogEntry): Occurrence {
    Occurrence(e.timestamp, MessageOf(e))
  }

  /** The occurrences of a regular expression in a log list, in log order.
      A line is tested against every pattern, so it can count for several. */
  function Hits(logs: seq<LogEntry>, rx: string, matches: Matcher): (hits: seq<Occurrence>)
    ensures |hits| <= |logs|
    decreases |logs|
  {
    if logs == [] then []
    else
      var last := logs[|logs| - 1];
      Hits(logs[..|logs| - 1], rx, matches) + (if matches(rx, MessageOf(last)) then [OccurrenceOf(last)] else [])
  }

  /** The occurrences are exactly the matching lines. */
  lemma {:induction false} HitsAreMatches(logs: seq<LogEntry>, rx: string, matches: Matcher, o: Occurrence)
    ensures o in Hits(logs, rx, matches) <==>
      exists j :: 0 <= j < |logs| && matches(rx, MessageOf(logs[j])) && o == OccurrenceOf(logs[j])
    decreases |logs|
  {
    if logs != [] {
      var init := logs[..|logs| - 1];
      HitsAreMatches(init, rx, matches, o);
      if exists j :: 0 <= j < |init| && matches(rx, MessageOf(init[j])) && o == OccurrenceOf(init[j]) {
        var j :| 0 <= j < |init| && matches(rx, MessageOf(init[j])) && o == OccurrenceOf(init[j]);
        assert logs[j] == init[j];
      }
      if exists j :: 0 <= j < |logs| && matches(rx, MessageOf(logs[j])) && o == OccurrenceOf(logs[j]) {
        var j :| 0 <= j < |logs| && matches(rx, MessageOf(logs[j])) && o == OccurrenceOf(logs[j]);
        if j < |init| {
          assert init[j] == logs[j];
        }
      }
    }
  }

  /** Taking one more line of the log. */
  lemma HitsStep(logs: seq<LogEntry>, i: nat, rx: string, matches: Matcher)
    requires i < |logs|
    ensures Hits(logs[..i + 1], rx, matches) ==
      Hits(logs[..i], rx, matches) + (if matches(rx, MessageOf(logs[i])) then [OccurrenceOf(logs[i])] else [])
  {
    assert logs[..i + 1][..i] == logs[..i];
  }

  /** The position of the first line that matches (meaningful when some
      line does). */
  function FirstMatch(logs: seq<LogEntry>, rx: string, matches: Matcher): (f: nat)
    ensures Hits(logs, rx, matches) != [] ==> f < |logs|
    decreases |logs|
  {
    if logs == [] then 0
    else if Hits(logs[..|logs| - 1], rx, matches) != [] then FirstMatch(logs[..|logs| - 1], rx, matches)
    else |logs| - 1
  }

  /** The first match is a matching line, and no earlier line matches. */
  lemma {:induction false} FirstMatchIsFirst(logs: seq<LogEntry>, rx: string, matches: Matcher)
    requires Hits(logs, rx, matches) != []
    ensures matches(rx, MessageOf(logs[FirstMatch(logs, rx, matches)]))
    ensures forall j :: 0 <= j < FirstMatch(logs, rx, matches) ==> !matches(rx, MessageOf(logs[j]))
    decreases |logs|
  {
    var init := logs[..|logs| - 1];
    if Hits(init, rx, matches) != [] {
      FirstMatchIsFirst(init, rx, matches);
    } else {
      forall j | 0 <= j < |init| ensures !matches(rx, MessageOf(logs[j])) {
        HitsAreMatches(init, rx, matches, OccurrenceOf(init[j]));
      }
    }
  }

  /** Once a pattern has matched, later lines do not move its first match. */
  lemma FirstMatchStep(logs: seq<LogEntry>, i: nat, rx: string, matches: Matcher)
    requires i < |logs|
    ensures Hits(logs[..i], rx, matches) != [] ==>
      FirstMatch(logs[..i + 1], rx, matches) == FirstMatch(logs[..i], rx, matches)
    ensures Hits(logs[..i], rx, matches) == [] && matches(rx, MessageOf(logs[i])) ==>
      FirstMatch(logs[..i + 1], rx, matches) == i
  {
    assert logs[..i + 1][..i] == logs[..i];
  }

  /** `min` and `max` of a non-empty list. */
  function Least(xs: seq<int>): (m: int)
    requires xs != []
    ensures m in xs && forall x :: x in xs ==> m <= x
  {
    if |xs| == 1 then xs[0]
    else
      var rest := Least(xs[1..]);
      assert xs == [xs[0]] + xs[1..];
      if xs[0] <= rest then xs[0] else rest
  }

  function Greatest(xs: seq<int>): (m: int)
    requires xs != []
    ensures m in xs && forall x :: x in xs ==> x <= m
  {
    if |xs| == 1 then xs[0]
    else
      var rest := Greatest(xs[1..]);
      assert xs == [xs[0]] + xs[1..];
      if xs[0] >= rest then xs[0] else rest
  }

  function Timestamps(occs: seq<Occurrence>): (ts: seq<int>)
    ensures |ts| == |occs| && forall i :: 0 <= i < |occs| ==> ts[i] == occs[i].timestamp
  {
    seq(|occs|, i requires 0 <= i < |occs| => occs[i].timestamp)
  }

  function Messages(occs: seq<Occurrence>): (ms: seq<string>)
    ensures |ms| == |occs| && forall i :: 0 <= i < |occs| ==> ms[i] == occs[i].message
  {
    seq(|occs|, i requires 0 <= i < |occs| => occs[i].message)
  }

  /** A `LogPattern` of the report. */
  datatype LogPattern = LogPattern(
    pattern: string,
    frequency: nat,
    severity: Level,
    firstSeen: int,
    lastSeen: int,
    examples: seq<string>)

  /** The report for a pattern with the given occurrences: its frequency,
      the earliest and latest timestamp, and the first three messages. */
  function Summary(kp: KnownPattern, occs: seq<Occurrence>): LogPattern
    requires occs != []
  {
    LogPattern(kp.name, |occs|, kp.severity, Least(Timestamps(occs)), Greatest(Timestamps(occs)),
               Messages(occs[..Min(3, |occs|)]))
  }

  /** What a summary states about the occurrences it summarises. */
  lemma SummaryFacts(kp: KnownPattern, occs: seq<Occurrence>)
    requires occs != []
    ensures var p := Summary(kp, occs);
      && p.frequency == |occs|
      && p.firstSeen <= p.lastSeen
      && (forall o :: o in occs ==> p.firstSeen <= o.timestamp <= p.lastSeen)
      && (exists o :: o in occs && o.timestamp == p.firstSeen)
      && |p.examples| == Min(3, |occs|)
      && forall i :: 0 <= i < |p.examples| ==> p.examples[i] == occs[i].message
  {
    var ts := Timestamps(occs);
    assert ts[0] in ts;
    forall o | o in occs ensures o.timestamp in ts {
      var i :| 0 <= i < |occs| && occs[i] == o;
      assert ts[i] == o.timestamp;
    }
    var least := Least(ts);
    var i :| 0 <= i < |ts| && ts[i] == least;
    assert occs[i] in occs;
  }

  /** A known pattern is reported when it matched at all (only matched
      patterns become keys of `pattern_counts`) and at least as often as its
      threshold. */
  predicate Significant(logs: seq<LogEntry>, known: seq<KnownPattern>, k: nat, matches: Matcher)
    requires k < |known|
  {
    var hits := Hits(logs, known[k].regex, matches);
    hits != [] && |hits| >= known[k].threshold
  }

  /** Report order: by the line of first match, then by table order. */
  predicate Before(logs: seq<LogEntry>, known: seq<KnownPattern>, matches: Matcher, n1: string, n2: string) {
    var k1 := IndexOf(known, n1);
    var k2 := IndexOf(known, n2);
    k1 < |known| && k2 < |known| &&
    var f1 := FirstMatch(logs, known[k1].regex, matches);
    var f2 := FirstMatch(logs, known[k2].regex, matches);
    f1 < f2 || (f1 == f2 && k1 < k2)
  }

  /** The keys are listed in report order. */
  predicate Ordered(logs: seq<LogEntry>, known: seq<KnownPattern>, matches: Matcher, order: seq<string>) {
    forall a, b :: 0 <= a < b < |order| ==> Before(logs, known, matches, order[a], order[b])
  }

  /** The lines pattern `j` has been tried on when line `i` has been tried
      against the first `k` patterns. */
  function Seen(logs: seq<LogEntry>, i: nat, k: nat, j: nat): seq<LogEntry>
    requires i <= |logs|
  {
    if j < k && i < |logs| then logs[..i + 1] else logs[..i]
  }

  /** The entry of pattern `j` in `pattern_counts` while line `i` is being
      tested and the first `k` patterns have been tried on it: present
      exactly when the pattern has matched so far, holding its occurrences. */
  ghost predicate Entry(logs: seq<LogEntry>, known: seq<KnownPattern>, matches: Matcher, i: nat, k: nat, j: nat,
                        counts: map<string, seq<Occurrence>>)
    requires i <= |logs| && j < |known|
  {
    var hits := Hits(Seen(logs, i, k, j), known[j].regex, matches);
    (known[j].name in counts <==> hits != []) && (known[j].name in counts ==> counts[known[j].name] == hits)
  }

  /** The whole dictionary at that point, with `order` listing its keys in
      insertion order. */
  ghost predicate Tally(logs: seq<LogEntry>, known: seq<KnownPattern>, matches: Matcher, i: nat, k: nat,
                        counts: map<string, seq<Occurrence>>, order: seq<string>)
    requires i <= |logs|
  {
    && (forall j :: 0 <= j < |known| ==> Entry(logs, known, matches, i, k, j, counts))
    && (forall n :: n in counts <==> n in order)
    && (forall a :: 0 <= a < |order| ==> IsKnown(known, order[a]))
  }

  predicate IsKnown(known: seq<KnownPattern>, name: string) {
    IndexOf(known, name) < |known|
  }

  /** A key already present before line `i` keeps its place when line `i`
      is taken into account. */
  lemma OrderedStep(logs: seq<LogEntry>, known: seq<KnownPattern>, matches: Matcher, i: nat,
                    counts: map<string, seq<Occurrence>>, order: seq<string>)
    requires i < |logs|
    requires Tally(logs, known, matches, i, 0, counts, order) && Ordered(logs[..i], known, matches, order)
    ensures Ordered(logs[..i + 1], known, matches, order)
  {
    forall a | 0 <= a < |order|
      ensures FirstMatch(logs[..i + 1], known[IndexOf(known, order[a])].regex, matches)
           == FirstMatch(logs[..i], known[IndexOf(known, order[a])].regex, matches)
    {
      var k := IndexOf(known, order[a]);
      assert Entry(logs, known, matches, i, 0, k, counts);
      FirstMatchStep(logs, i, known[k].regex, matches);
    }
  }

  /** After the last pattern, line `i` has been tried by all of them. */
  lemma TallyLineDone(logs: seq<LogEntry>, known: seq<KnownPattern>, matches: Matcher, i: nat,
                      counts: map<string, seq<Occurrence>>, order: seq<string>)
    requires i < |logs|
    requires Tally(logs, known, matches, i, |known|, counts, order)
    ensures Tally(logs, known, matches, i + 1, 0, counts, order)
  {
    var next := i + 1;
    forall j | 0 <= j < |known|
      ensures Entry(logs, known, matches, next, 0, j, counts)
    {
      assert Entry(logs, known, matches, i, |known|, j, counts);
      assert Seen(logs, i, |known|, j) == Seen(logs, i + 1, 0, j);
    }
  }

  /** `pattern_counts[name].append(o)` on a `defaultdict(list)`: a missing
      key is created with an empty list, and becomes the last key. */
  function Record(counts: map<string, seq<Occurrence>>, order: seq<string>, name: string, o: Occurrence)
    : (r: (map<string, seq<Occurrence>>, seq<string>))
  {
    if name in counts then (counts[name := counts[name] + [o]], order)
    else (counts[name := [o]], order + [name])
  }

  /** Trying pattern `k` on line `i` when it does not match. */
  lemma TallyMissStep(logs: seq<LogEntry>, known: seq<KnownPattern>, matches: Matcher, i: nat, k: nat,
                      counts: map<string, seq<Occurrence>>, order: seq<string>)
    requires i < |logs| && k < |known|
    requires Tally(logs, known, matches, i, k, counts, order)
    requires !matches(known[k].regex, MessageOf(logs[i]))
    ensures Tally(logs, known, matches, i, k + 1, counts, order)
  {
    var next := k + 1;
    forall j | 0 <= j < |known| ensures Entry(logs, known, matches, i, next, j, counts) {
      assert Entry(logs, known, matches, i, k, j, counts);
      if j == k {
        HitsStep(logs, i, known[k].regex, matches);
      } else {
        assert Seen(logs, i, k + 1, j) == Seen(logs, i, k, j);
      }
    }
  }

  /** Trying pattern `k` on line `i` when it matches: the occurrence is
      recorded under the pattern's name. */
  lemma TallyMatchStep(logs: seq<LogEntry>, known: seq<KnownPattern>, matches: Matcher, i: nat, k: nat,
                       counts: map<string, seq<Occurrence>>, order: seq<string>)
    requires KeyedByName(known)
    requires i < |logs| && k < |known|
    requires Tally(logs, known, matches, i, k, counts, order)
    requires matches(known[k].regex, MessageOf(logs[i]))
    ensures var r := Record(counts, order, known[k].name, OccurrenceOf(logs[i]));
      Tally(logs, known, matches, i, k + 1, r.0, r.1)
  {
    var r := Record(counts, order, known[k].name, OccurrenceOf(logs[i]));
    var next := k + 1;
    forall j | 0 <= j < |known| ensures Entry(logs, known, matches, i, next, j, r.0) {
      assert Entry(logs, known, matches, i, k, j, counts);
      if j == k {
        HitsStep(logs, i, known[k].regex, matches);
      } else {
        assert known[j].name != known[k].name;
        assert Seen(logs, i, k + 1, j) == Seen(logs, i, k, j);
      }
    }
    IndexOfName(known, k);
  }

  /** The pattern inserted while testing line `i` comes after every key
      already in the dictionary. */
  lemma InsertedLast(logs: seq<LogEntry>, known: seq<KnownPattern>, matches: Matcher, i: nat, k: nat, ka: nat)
    requires KeyedByName(known)
    requires i < |logs| && k < |known| && ka < |known|
    requires Hits(logs[..i], known[k].regex, matches) == [] && matches(known[k].regex, MessageOf(logs[i]))
    requires ka < k || Hits(logs[..i], known[ka].regex, matches) != []
    requires Hits(logs[..i + 1], known[ka].regex, matches) != []
    ensures Before(logs[..i + 1], known, matches, known[ka].name, known[k].name)
  {
    FirstMatchStep(logs, i, known[k].regex, matches);
    FirstMatchStep(logs, i, known[ka].regex, matches);
    IndexOfName(known, k);
    IndexOfName(known, ka);
  }

  /** A pattern that matches line `i` for the first time is inserted after
      every key already present. */
  lemma OrderedInsert(logs: seq<LogEntry>, known: seq<KnownPattern>, matches: Matcher, i: nat, k: nat,
                      counts: map<string, seq<Occurrence>>, order: seq<string>)
    requires KeyedByName(known)
    requires i < |logs| && k < |known|
    requires Tally(logs, known, matches, i, k, counts, order) && Ordered(logs[..i + 1], known, matches, order)
    requires matches(known[k].regex, MessageOf(logs[i])) && known[k].name !in counts
    ensures Ordered(logs[..i + 1], known, matches, order + [known[k].name])
  {
    forall a | 0 <= a < |order| ensures Before(logs[..i + 1], known, matches, order[a], known[k].name) {
      var ka := IndexOf(known, order[a]);
      assert Entry(logs, known, matches, i, k, ka, counts);
      assert Entry(logs, known, matches, i, k, k, counts);
      if ka >= k {
        assert Seen(logs, i, k, ka) == logs[..i];
      } else {
        assert Seen(logs, i, k, ka) == logs[..i + 1];
      }
      HitsStep(logs, i, known[ka].regex, matches);
      assert Seen(logs, i, k, k) == logs[..i];
      InsertedLast(logs, known, matches, i, k, ka);
    }
  }

  /** The inner loop of `_analyze_log_patterns`: line `i` is tested against
      every known pattern and appended to the occurrences of each one it
      matches; a pattern seen for the first time becomes the last key. */
  method TallyLine(logs: seq<LogEntry>, known: seq<KnownPattern>, matches: Matcher, i: nat,
                   counts0: map<string, seq<Occurrence>>, order0: seq<string>)
    returns (counts: map<string, seq<Occurrence>>, order: seq<string>)
    requires KeyedByName(known)
    requires i < |logs|
    requires Tally(logs, known, matches, i, 0, counts0, order0) && Ordered(logs[..i], known, matches, order0)
    ensures Tally(logs, known, matches, i + 1, 0, counts, order) && Ordered(logs[..i + 1], known, matches, order)
  {
    counts, order := counts0, order0;
    OrderedStep(logs, known, matches, i, counts, order);
    var message := MessageOf(logs[i]);
    for k := 0 to |known|
      invariant Tally(logs, known, matches, i, k, counts, order)
      invariant Ordered(logs[..i + 1], known, matches, order)
    {
      var name := known[k].name;
      if matches(known[k].regex, message) {
        TallyMatchStep(logs, known, matches, i, k, counts, order);
        ghost var r := Record(counts, order, name, OccurrenceOf(logs[i]));
        ghost var before := counts;
        if name !in counts {
          OrderedInsert(logs, known, matches, i, k, counts, order);
          order := order + [name];
          counts := counts[name := []];
        }
        var occurrences := counts[name] + [OccurrenceOf(logs[i])];
        assert name !in before ==> occurrences == [OccurrenceOf(logs[i])];
        counts := counts[name := occurrences];
        assert counts == before[name := occurrences];
        assert (counts, order) == r;
      } else {
        TallyMissStep(logs, known, matches, i, k, counts, order);
      }
    }
    TallyLineDone(logs, known, matches, i, counts, order);
  }

  /** The entry of pattern `j` once every line has been tested. */
  ghost predicate Final(logs: seq<LogEntry>, known: seq<KnownPattern>, matches: Matcher, j: nat,
                        counts: map<string, seq<Occurrence>>)
    requires j < |known|
  {
    var hits := Hits(logs, known[j].regex, matches);
    (known[j].name in counts <==> hits != []) && (known[j].name in counts ==> counts[known[j].name] == hits)
  }

  /** `pattern_counts` after the scan, with its keys in insertion order. */
  ghost predicate Tallied(logs: seq<LogEntry>, known: seq<KnownPattern>, matches: Matcher,
                          counts: map<string, seq<Occurrence>>, order: seq<string>)
  {
    && (forall j :: 0 <= j < |known| ==> Final(logs, known, matches, j, counts))
    && (forall n :: n in counts <==> n in order)
    && (forall a :: 0 <= a < |order| ==> IsKnown(known, order[a]))
    && Ordered(logs, known, matches, order)
  }

  /** The outer loop of `_analyze_log_patterns`: the dictionary of
      occurrences per pattern after every line has been tested, with its
      keys in insertion order. */
  method TallyPatterns(logs: seq<LogEntry>, known: seq<KnownPattern>, matches: Matcher)
    returns (counts: map<string, seq<Occurrence>>, order: seq<string>)
    requires KeyedByName(known)
    ensures Tallied(logs, known, matches, counts, order)
  {
    counts, order := map[], [];
    for i := 0 to |logs|
      invariant Tally(logs, known, matches, i, 0, counts, order) && Ordered(logs[..i], known, matches, order)
    {
      counts, order := TallyLine(logs, known, matches, i, counts, order);
    }
    assert logs[..|logs|] == logs;
    var n := |logs|;
    forall j | 0 <= j < |known| ensures Final(logs, known, matches, j, counts) {
      assert Entry(logs, known, matches, n, 0, j, counts);
      assert Seen(logs, n, 0, j) == logs;
    }
  }

  /** The report of one pattern, stated on the whole log. */
  predicate Reports(logs: seq<LogEntry>, known: seq<KnownPattern>, matches: Matcher, p: LogPattern) {
    var k := IndexOf(known, p.pattern);
    k < |known| && Significant(logs, known, k, matches)
    && p == Summary(known[k], Hits(logs, known[k].regex, matches))
  }

  /** The reports the second loop produces from the keys `names`, in order:
      one per key whose occurrences reach the pattern's threshold. */
  function Select(known: seq<KnownPattern>, counts: map<string, seq<Occurrence>>, names: seq<string>)
    : seq<LogPattern>
    decreases |names|
  {
    if names == [] then []
    else
      var rest := Select(known, counts, names[..|names| - 1]);
      var name := names[|names| - 1];
      var k := IndexOf(known, name);
      if k < |known| && name in counts && counts[name] != [] && |counts[name]| >= known[k].threshold
      then rest + [Summary(known[k], counts[name])]
      else rest
  }

  /** Every selected report is a report of the whole log. */
  lemma {:induction false} SelectReports(logs: seq<LogEntry>, known: seq<KnownPattern>, matches: Matcher,
                                         counts: map<string, seq<Occurrence>>, names: seq<string>)
    requires forall j :: 0 <= j < |known| ==> Final(logs, known, matches, j, counts)
    ensures forall x :: 0 <= x < |Select(known, counts, names)| ==>
      Reports(logs, known, matches, Select(known, counts, names)[x])
    decreases |names|
  {
    if names != [] {
      var init := names[..|names| - 1];
      SelectReports(logs, known, matches, counts, init);
      var k := IndexOf(known, names[|names| - 1]);
      if k < |known| {
        assert Final(logs, known, matches, k, counts);
      }
    }
  }

  /** Each selected report is for one of the keys. */
  lemma {:induction false} SelectFromNames(known: seq<KnownPattern>, counts: map<string, seq<Occurrence>>,
                                           names: seq<string>)
    ensures forall x :: 0 <= x < |Select(known, counts, names)| ==> Select(known, counts, names)[x].pattern in names
    decreases |names|
  {
    if names != [] {
      var init := names[..|names| - 1];
      SelectFromNames(known, counts, init);
      assert forall n :: n in init ==> n in names;
    }
  }

  /** Selection keeps the order of the keys. */
  lemma {:induction false} SelectOrdered(logs: seq<LogEntry>, known: seq<KnownPattern>, matches: Matcher,
                                         counts: map<string, seq<Occurrence>>, names: seq<string>)
    requires Ordered(logs, known, matches, names)
    ensures Ordered(logs, known, matches, Names(Select(known, counts, names)))
    decreases |names|
  {
    if names != [] {
      var init := names[..|names| - 1];
      var last := names[|names| - 1];
      assert Ordered(logs, known, matches, init) by {
        forall a, b | 0 <= a < b < |init| ensures Before(logs, known, matches, init[a], init[b]) {
          assert init[a] == names[a] && init[b] == names[b];
        }
      }
      SelectOrdered(logs, known, matches, counts, init);
      SelectFromNames(known, counts, init);
      var rest := Select(known, counts, init);
      forall x | 0 <= x < |rest| ensures Before(logs, known, matches, rest[x].pattern, last) {
        var a :| 0 <= a < |init| && init[a] == rest[x].pattern;
        assert names[a] == init[a];
      }
    }
  }

  /** A key whose occurrences reach its threshold is selected. */
  lemma {:induction false} SelectComplete(known: seq<KnownPattern>, counts: map<string, seq<Occurrence>>,
                                          names: seq<string>, a: nat)
    requires a < |names| && IndexOf(known, names[a]) < |known| && names[a] in counts
    requires counts[names[a]] != [] && |counts[names[a]]| >= known[IndexOf(known, names[a])].threshold
    ensures names[a] in Names(Select(known, counts, names))
    decreases |names|
  {
    var init := names[..|names| - 1];
    var rest := Select(known, counts, init);
    if a < |init| {
      assert init[a] == names[a];
      SelectComplete(known, counts, init, a);
      var x :| 0 <= x < |rest| && Names(rest)[x] == names[a];
      assert Names(Select(known, counts, names))[x] == names[a];
    } else {
      var sel := Select(known, counts, names);
      assert sel[|sel| - 1].pattern == names[a];
      assert Names(sel)[|sel| - 1] == names[a];
    }
  }

  /** The second loop of `_analyze_log_patterns`: the keys whose count
      reaches the pattern's threshold are reported, in key order. */
  method ReportPatterns(known: seq<KnownPattern>, counts: map<string, seq<Occurrence>>, order: seq<string>)
    returns (found: seq<LogPattern>)
    requires forall a :: 0 <= a < |order| ==> IsKnown(known, order[a]) && order[a] in counts && counts[order[a]] != []
    ensures found == Select(known, counts, order)
  {
    found := [];
    for t := 0 to |order|
      invariant found == Select(known, counts, order[..t])
    {
      assert order[..t + 1][..t] == order[..t];
      var name := order[t];
      var k := IndexOf(known, name);
      var occurrences := counts[name];
      if |occurrences| >= known[k].threshold {
        var timestamps := Timestamps(occurrences);
        var pattern := LogPattern(name, |occurrences|, known[k].severity,
                                  Least(timestamps), Greatest(timestamps),
                                  Messages(occurrences[..Min(3, |occurrences|)]));
        found := found + [pattern];
      }
    }
    assert order[..|order|] == order;
  }

  /** What the pattern analysis promises of its reports `found`: each one is
      the report of a significant pattern of the whole log, every
      significant pattern has a report, and the reports are ordered by the
      first line each pattern matched (ties by table order). */
  predicate Analyzed(logs: seq<LogEntry>, known: seq<KnownPattern>, matches: Matcher, found: seq<LogPattern>) {
    && (forall t :: 0 <= t < |found| ==> Reports(logs, known, matches, found[t]))
    && (forall k :: 0 <= k < |known| && Significant(logs, known, k, matches) ==>
          exists t :: 0 <= t < |found| && found[t].pattern == known[k].name)
    && Ordered(logs, known, matches, Names(found))
  }

  /** `_analyze_log_patterns`: every line is tested against every pattern
      of the table; a pattern is reported when its match count reaches its
      threshold, with that count as frequency, its first and last timestamp
      and its first three messages. Reports come in the order the patterns
      first matched (the insertion order of `pattern_counts`). */
  method AnalyzeLogPatterns(logs: seq<LogEntry>, known: seq<KnownPattern>, matches: Matcher)
    returns (found: seq<LogPattern>)
    requires KeyedByName(known)
    ensures Analyzed(logs, known, matches, found)
  {
    var counts, order := TallyPatterns(logs, known, matches);
    forall a | 0 <= a < |order| ensures order[a] in counts && counts[order[a]] != [] {
      assert Final(logs, known, matches, IndexOf(known, order[a]), counts);
    }
    found := ReportPatterns(known, counts, order);
    SelectReports(logs, known, matches, counts, order);
    SelectOrdered(logs, known, matches, counts, order);
    forall k | 0 <= k < |known| && Significant(logs, known, k, matches)
      ensures exists t :: 0 <= t < |found| && found[t].pattern == known[k].name
    {
      IndexOfName(known, k);
      assert Final(logs, known, matches, k, counts);
      var a :| 0 <= a < |order| && order[a] == known[k].name;
      SelectComplete(known, counts, order, a);
      var t :| 0 <= t < |found| && Names(found)[t] == known[k].name;
    }
  }

  /** `[p.pattern for p in log_patterns]`. */
  function Names(patterns: seq<LogPattern>): (names: seq<string>)
    ensures |names| == |patterns| && forall i :: 0 <= i < |patterns| ==> names[i] == patterns[i].pattern
  {
    seq(|patterns|, i requires 0 <= i < |patterns| => patterns[i].pattern)
  }

  // ---------------------------------------------------------------------
  // Severity distribution

  /** The buckets of `_analyze_log_severity_distribution`. */
  datatype Bucket = CriticalLogs | ErrorLogs | WarningLogs | InfoLogs

  function BucketName(b: Bucket): string {
    match b
    case CriticalLogs => "critical"
    case ErrorLogs => "error"
    case WarningLogs => "warning"
    case InfoLogs => "info"
  }

  /** `log.get("severity", 0)`. */
  function SeverityOf(e: LogEntry): int {
    e.severity.GetOr(0)
  }

  /** The bucket of a severity level: 4 and above, 3, 2, below 2. */
  function BucketOf(severity: int): (b: Bucket)
    ensures b == CriticalLogs <==> severity >= 4
    ensures b == ErrorLogs <==> severity == 3
    ensures b == WarningLogs <==> severity == 2
    ensures b == InfoLogs <==> severity < 2
  {
    if severity >= 4 then CriticalLogs
    else if severity >= 3 then ErrorLogs
    else if severity >= 2 then WarningLogs
    else InfoLogs
  }

  /** The number of log lines that fall in a bucket. */
  function CountIn(logs: seq<LogEntry>, b: Bucket): (n: nat)
    ensures n <= |logs|
    decreases |logs|
  {
    if logs == [] then 0
    else CountIn(logs[..|logs| - 1], b) + (if BucketOf(SeverityOf(logs[|logs| - 1])) == b then 1 else 0)
  }

  /** Every line falls in exactly one bucket, so the four counts add up to
      the number of lines. */
  lemma {:induction false} BucketsPartition(logs: seq<LogEntry>)
    ensures CountIn(logs, CriticalLogs) + CountIn(logs, ErrorLogs) + CountIn(logs, WarningLogs)
          + CountIn(logs, InfoLogs) == |logs|
    decreases |logs|
  {
    if logs != [] {
      BucketsPartition(logs[..|logs| - 1]);
    }
  }

  /** `_analyze_log_severity_distribution`: a `defaultdict(int)` counting the
      lines per bucket; a bucket with no line has no key. */
  method SeverityDistribution(logs: seq<LogEntry>) returns (distribution: map<string, nat>)
    ensures forall b :: BucketName(b) in distribution <==> CountIn(logs, b) > 0
    ensures forall b :: BucketName(b) in distribution ==> distribution[BucketName(b)] == CountIn(logs, b)
    ensures forall n :: n in distribution ==> n in {"critical", "error", "warning", "info"}
  {
    distribution := map[];
    for i := 0 to |logs|
      invariant forall b :: BucketName(b) in distribution <==> CountIn(logs[..i], b) > 0
      invariant forall b :: BucketName(b) in distribution ==> distribution[BucketName(b)] == CountIn(logs[..i], b)
      invariant forall n :: n in distribution ==> n in {"critical", "error", "warning", "info"}
    {
      assert logs[..i + 1][..i] == logs[..i];
      var severity := SeverityOf(logs[i]);
      var key;
      if severity >= 4 {
        key := "critical";
      } else if severity >= 3 {
        key := "error";
      } else if severity >= 2 {
        key := "warning";
      } else {
        key := "info";
      }
      assert key == BucketName(BucketOf(severity));
      distribution := distribution[key := (if key in distribution then distribution[key] else 0) + 1];
    }
    assert logs[..|logs|] == logs;
  }

  // ---------------------------------------------------------------------
  // Anomaly severity

  function Abs(x: real): real {
    if x < 0.0 then -x else x
  }

  /** How many standard deviations a value lies from the mean; a flat series
      (standard deviation 0) counts as no deviation. */
  function Deviations(value: real, mean: real, std: real): (d: real)
    ensures d >= 0.0
  {
    if std > 0.0 then Abs(value - mean) / std else 0.0
  }

  /** `_classify_anomaly_severity`; the metric name plays no part. */
  function ClassifyAnomalySeverity(metricName: string, value: real, mean: real, std: real): Level {
    var d := Deviations(value, mean, std);
    if d > 3.0 then Critical
    else if d > 2.5 then High
    else if d > 2.0 then Medium
    else Low
  }

  /** The severity bands: above 3 deviations critical, above 2.5 high,
      above 2 medium, otherwise low. */
  lemma AnomalyBands(metricName: string, value: real, mean: real, std: real)
    ensures var l := ClassifyAnomalySeverity(metricName, value, mean, std);
      var d := Deviations(value, mean, std);
      && (l == Critical <==> d > 3.0)
      && (l == High <==> 2.5 < d <= 3.0)
      && (l == Medium <==> 2.0 < d <= 2.5)
      && (l == Low <==> d <= 2.0)
  {
  }

  /** With no spread every value is a low anomaly. */
  lemma FlatSeriesIsLow(metricName: string, value: real, mean: real, std: real)
    requires std <= 0.0
    ensures ClassifyAnomalySeverity(metricName, value, mean, std) == Low
  {
  }

  /** Further from the mean is never less severe. */
  lemma AnomalySeverityMonotone(metricName: string, v1: real, v2: real, mean: real, std: real)
    requires Abs(v1 - mean) <= Abs(v2 - mean)
    ensures LevelRank(ClassifyAnomalySeverity(metricName, v1, mean, std))
         <= LevelRank(ClassifyAnomalySeverity(metricName, v2, mean, std))
  {
    if std > 0.0 {
      assert Abs(v1 - mean) / std <= Abs(v2 - mean) / std by {
        var q := Abs(v2 - mean) / std - Abs(v1 - mean) / std;
        assert q * std == Abs(v2 - mean) - Abs(v1 - mean);
      }
    }
  }

  /** A value the detector flags (above mean + 2 std) is at least a medium
      anomaly when the series has spread. */
  lemma FlaggedValueAtLeastMedium(metricName: string, value: real, mean: real, std: real)
    requires std > 0.0 && value > mean + 2.0 * std
    ensures ClassifyAnomalySeverity(metricName, value, mean, std) != Low
  {
    var d := Deviations(value, mean, std);
    assert d * std == value - mean;
    assert (d - 2.0) * std > 0.0;
  }

  // ---------------------------------------------------------------------
  // Metric units

  /** `_get_metric_unit`: the first rule that applies. Stated rule by rule:
      the percent test (case-insensitive "percentage", or "CPU"), then
      "Time", then "Requests" or "Exceptions", then the fallback. */
  function MetricUnit(metricName: string): (unit: string)
    ensures var percent := Contains(ToLower(metricName), "percentage") || Contains(metricName, "CPU");
      var time := Contains(metricName, "Time");
      var count := Contains(metricName, "Requests") || Contains(metricName, "Exceptions");
      && (unit == "percent" <==> percent)
      && (unit == "milliseconds" <==> !percent && time)
      && (unit == "count" <==> !percent && !time && count)
      && (unit == "unit" <==> !percent && !time && !count)
  {
    if Contains(ToLower(metricName), "percentage") || Contains(metricName, "CPU") then "percent"
    else if Contains(metricName, "Time") then "milliseconds"
    else if Contains(metricName, "Requests") || Contains(metricName, "Exceptions") then "count"
    else "unit"
  }

  /** A name without the letter g, in either case, does not contain
      "percentage" once lower-cased. */
  lemma NoPercentage(name: string)
    requires 'g' !in name && 'G' !in name
    ensures !Contains(ToLower(name), "percentage")
  {
    assert 'g' !in ToLower(name);
    ContainsChar(ToLower(name), "percentage", 8);
  }

  /** A name without the letters that open "percentage" (either case),
      "CPU" and "Time" passes the first two tests of `MetricUnit`. */
  lemma PastTimeTest(name: string)
    requires 'g' !in name && 'G' !in name && 'C' !in name && 'T' !in name
    ensures !Contains(ToLower(name), "percentage") && !Contains(name, "CPU") && !Contains(name, "Time")
  {
    NoPercentage(name);
    ContainsChar(name, "CPU", 0);
    ContainsChar(name, "Time", 0);
  }

  /** The units of the six metrics the collector asks for: both percentage
      metrics are percent (one of them only through the case-insensitive
      test), the response time is milliseconds, requests and exceptions are
      counts, and `Http5xx` matches no rule. */
  lemma PercentageCpuUnit(name: string)
    requires name == "Percentage CPU"
    ensures MetricUnit(name) == "percent"
  {
    ContainsAt(name, "CPU", 11);
  }

  lemma MemoryPercentageUnit(name: string)
    requires name == "Memory percentage"
    ensures MetricUnit(name) == "percent"
  {
    assert ToLower(name)[7..17] == "percentage";
    ContainsAt(ToLower(name), "percentage", 7);
  }

  lemma ResponseTimeUnit(name: string)
    requires name == "ResponseTime"
    ensures MetricUnit(name) == "milliseconds"
  {
    ContainsAt(name, "Time", 8);
    NoPercentage(name);
    ContainsChar(name, "CPU", 0);
  }

  lemma CountUnits(name: string)
    requires name == "Requests" || name == "Exceptions"
    ensures MetricUnit(name) == "count"
  {
    if name == "Requests" {
      ContainsAt(name, "Requests", 0);
      PastTimeTest(name);
    } else {
      ContainsAt(name, "Exceptions", 0);
      PastTimeTest(name);
    }
  }

  lemma Http5xxUnit(name: string)
    requires name == "Http5xx"
    ensures MetricUnit(name) == "unit"
  {
    PastTimeTest(name);
    ContainsChar(name, "Requests", 0);
    ContainsChar(name, "Exceptions", 0);
  }

  // ---------------------------------------------------------------------
  // Anomalies, as the detectors hand them over

  /** One entry of the anomaly list: a value of a metric above two standard
      deviations of its series (with its classified severity), or a point the
      clustering flagged, which carries no metric and no value and is always
      of medium severity. */
  datatype Anomaly =
    | MetricAnomaly(metric: string, timestamp: int, value: real, severity: Level)
    | ClusterAnomaly(timestamp: int)

  /** `anomaly.get("severity")`. */
  function AnomalyLevel(a: Anomaly): Level {
    match a
    case MetricAnomaly(_, _, _, level) => level
    case ClusterAnomaly(_) => Medium
  }

  /** `anomaly.get("metric")`. */
  function MetricOf(a: Anomaly): Option<string> {
    match a
    case MetricAnomaly(metric, _, _, _) => Some(metric)
    case ClusterAnomaly(_) => None
  }

  /** `anomaly.get("value")`. */
  function ValueOf(a: Anomaly): Option<real> {
    match a
    case MetricAnomaly(_, _, value, _) => Some(value)
    case ClusterAnomaly(_) => None
  }

  /** The concatenation of `f` over `xs`, built from the back as a loop that
      extends a list per element does. */
  function FlatMap<T, U>(xs: seq<T>, f: T -> seq<U>): seq<U>
    decreases |xs|
  {
    if xs == [] then [] else FlatMap(xs[..|xs| - 1], f) + f(xs[|xs| - 1])
  }

  /** One more element of a prefix adds its image at the end. */
  lemma FlatMapSnoc<T, U>(xs: seq<T>, t: nat, f: T -> seq<U>)
    requires t < |xs|
    ensures FlatMap(xs[..t + 1], f) == FlatMap(xs[..t], f) + f(xs[t])
  {
    assert xs[..t + 1][..t] == xs[..t];
  }

  /** An element of the concatenation comes from one of the inputs, and
      every piece is in it. */
  lemma {:induction false} FlatMapMembers<T, U>(xs: seq<T>, f: T -> seq<U>, u: U)
    ensures u in FlatMap(xs, f) <==> exists i :: 0 <= i < |xs| && u in f(xs[i])
    decreases |xs|
  {
    if xs != [] {
      var init := xs[..|xs| - 1];
      FlatMapMembers(init, f, u);
      if exists i :: 0 <= i < |init| && u in f(init[i]) {
        var i :| 0 <= i < |init| && u in f(init[i]);
        assert xs[i] == init[i];
      }
      if exists i :: 0 <= i < |xs| && u in f(xs[i]) {
        var i :| 0 <= i < |xs| && u in f(xs[i]);
        if i < |init| {
          assert init[i] == xs[i];
        }
      }
    }
  }

  /** The concatenation is empty exactly when every piece is. */
  lemma {:induction false} FlatMapEmpty<T, U>(xs: seq<T>, f: T -> seq<U>)
    ensures FlatMap(xs, f) == [] <==> forall i :: 0 <= i < |xs| ==> f(xs[i]) == []
    decreases |xs|
  {
    if xs != [] {
      var init := xs[..|xs| - 1];
      FlatMapEmpty(init, f);
      assert forall i :: 0 <= i < |init| ==> init[i] == xs[i];
    }
  }

  // ---------------------------------------------------------------------
  // Root cause

  /** A potential cause with its confidence score (the parallel lists
      `potential_causes` and `confidence_scores`). */
  datatype Candidate = Candidate(cause: string, score: real)

  /** The rule candidate of a log pattern: critical patterns score 0.8, high
      ones 0.6, the others give none. */
  function PatternCandidate(p: LogPattern): seq<Candidate> {
    if p.severity == Critical then [Candidate("Log pattern: " + p.pattern, 0.8)]
    else if p.severity == High then [Candidate("Log pattern: " + p.pattern, 0.6)]
    else []
  }

  /** The rule candidate of an anomaly: critical anomalies score 0.7. Only a
      metric anomaly can be critical. */
  function AnomalyCandidate(a: Anomaly): seq<Candidate> {
    if a.MetricAnomaly? && a.severity == Critical then [Candidate("Metric anomaly: " + a.metric, 0.7)]
    else []
  }

  /** All rule candidates: those of the patterns, then those of the
      anomalies. */
  function Candidates(patterns: seq<LogPattern>, anomalies: seq<Anomaly>): seq<Candidate> {
    FlatMap(patterns, PatternCandidate) + FlatMap(anomalies, AnomalyCandidate)
  }

  /** `i` is where `max` and then `index` land: a highest score, and the
      first position holding it. */
  predicate IsFirstBest(cands: seq<Candidate>, i: int) {
    && 0 <= i < |cands|
    && (forall j :: 0 <= j < |cands| ==> cands[j].score <= cands[i].score)
    && (forall j :: 0 <= j < i ==> cands[j].score < cands[i].score)
  }

  /** The answer of the language-model analysis: its `root_cause` and its
      `confidence`, if it gave one. */
  datatype AiAnalysis = AiAnalysis(rootCause: string, confidence: Option<real>)

  const NoRootCause := "Unable to determine root cause with available data"

  /** The choice `_determine_root_cause` makes: the model's answer when its
      confidence is at least 0.7; otherwise the first best rule candidate,
      or the fixed message with 0.3 when there is none. */
  predicate RootCauseChosen(patterns: seq<LogPattern>, anomalies: seq<Anomaly>, ai: AiAnalysis,
                            cause: string, confidence: real) {
    var cands := Candidates(patterns, anomalies);
    if ai.confidence.GetOr(0.0) >= 0.7 then cause == ai.rootCause && ai.confidence == Some(confidence)
    else if cands == [] then cause == NoRootCause && confidence == 0.3
    else exists i :: 0 <= i < |cands| && IsFirstBest(cands, i) && cause == cands[i].cause && confidence == cands[i].score
  }

  /** The first best position is unique. */
  lemma FirstBestUnique(cands: seq<Candidate>, i: int, j: int)
    requires IsFirstBest(cands, i) && IsFirstBest(cands, j)
    ensures i == j
  {
    assert cands[i].score == cands[j].score;
  }

  /** The choice is a function of its inputs: two answers that both satisfy
      it are the same answer. */
  lemma RootCauseDetermined(patterns: seq<LogPattern>, anomalies: seq<Anomaly>, ai: AiAnalysis,
                            cause1: string, confidence1: real, cause2: string, confidence2: real)
    requires RootCauseChosen(patterns, anomalies, ai, cause1, confidence1)
    requires RootCauseChosen(patterns, anomalies, ai, cause2, confidence2)
    ensures cause1 == cause2 && confidence1 == confidence2
  {
    var cands := Candidates(patterns, anomalies);
    if ai.confidence.GetOr(0.0) < 0.7 && cands != [] {
      var i :| 0 <= i < |cands| && IsFirstBest(cands, i) && cause1 == cands[i].cause && confidence1 == cands[i].score;
      var j :| 0 <= j < |cands| && IsFirstBest(cands, j) && cause2 == cands[j].cause && confidence2 == cands[j].score;
      FirstBestUnique(cands, i, j);
    }
  }

  /** There are no rule candidates exactly when no pattern is critical or
      high and no anomaly is critical. */
  lemma NoCandidates(patterns: seq<LogPattern>, anomalies: seq<Anomaly>)
    ensures Candidates(patterns, anomalies) == [] <==>
      (forall i :: 0 <= i < |patterns| ==> patterns[i].severity != Critical && patterns[i].severity != High)
      && (forall j :: 0 <= j < |anomalies| ==> AnomalyLevel(anomalies[j]) != Critical)
  {
    FlatMapEmpty(patterns, PatternCandidate);
    FlatMapEmpty(anomalies, AnomalyCandidate);
  }

  /** Every rule candidate scores 0.6, 0.7 or 0.8, and only critical patterns
      score 0.8. */
  lemma CandidateScores(patterns: seq<LogPattern>, anomalies: seq<Anomaly>, c: Candidate)
    requires c in Candidates(patterns, anomalies)
    ensures c.score == 0.6 || c.score == 0.7 || c.score == 0.8
    ensures c.score == 0.8 ==>
      exists k :: 0 <= k < |patterns| && patterns[k].severity == Critical && c.cause == "Log pattern: " + patterns[k].pattern
  {
    FlatMapMembers(patterns, PatternCandidate, c);
    FlatMapMembers(anomalies, AnomalyCandidate, c);
  }

  /** Without a confident model answer, a critical log pattern always wins:
      the confidence is 0.8 and the cause names a critical pattern. */
  lemma CriticalPatternWins(patterns: seq<LogPattern>, anomalies: seq<Anomaly>, ai: AiAnalysis,
                            cause: string, confidence: real, k: nat)
    requires ai.confidence.GetOr(0.0) < 0.7
    requires k < |patterns| && patterns[k].severity == Critical
    requires RootCauseChosen(patterns, anomalies, ai, cause, confidence)
    ensures confidence == 0.8
    ensures exists k' ::
      0 <= k' < |patterns| && patterns[k'].severity == Critical && cause == "Log pattern: " + patterns[k'].pattern
  {
    var cands := Candidates(patterns, anomalies);
    var c := Candidate("Log pattern: " + patterns[k].pattern, 0.8);
    assert c in PatternCandidate(patterns[k]);
    FlatMapMembers(patterns, PatternCandidate, c);
    assert c in cands;
    var i :| 0 <= i < |cands| && IsFirstBest(cands, i) && cause == cands[i].cause && confidence == cands[i].score;
    var x :| 0 <= x < |cands| && cands[x] == c;
    assert cands[i].score >= 0.8;
    assert cands[i] in cands;
    CandidateScores(patterns, anomalies, cands[i]);
  }

  /** When the diagnosis reaches 0.8, the threshold the orchestrator acts
      on: exactly when the model's answer does, or, without a usable model
      answer, when some log pattern is critical. A high pattern (0.6), a
      critical anomaly (0.7) and a model answer between 0.7 and 0.8 all stay
      below it. */
  lemma ConfidentDiagnosis(patterns: seq<LogPattern>, anomalies: seq<Anomaly>, ai: AiAnalysis,
                           cause: string, confidence: real)
    requires RootCauseChosen(patterns, anomalies, ai, cause, confidence)
    ensures confidence >= 0.8 <==>
      ai.confidence.GetOr(0.0) >= 0.8
      || (ai.confidence.GetOr(0.0) < 0.7 && exists k :: 0 <= k < |patterns| && patterns[k].severity == Critical)
  {
    var cands := Candidates(patterns, anomalies);
    if ai.confidence.GetOr(0.0) < 0.7 {
      if exists k :: 0 <= k < |patterns| && patterns[k].severity == Critical {
        var k :| 0 <= k < |patterns| && patterns[k].severity == Critical;
        CriticalPatternWins(patterns, anomalies, ai, cause, confidence, k);
      } else if cands != [] {
        var i :| 0 <= i < |cands| && IsFirstBest(cands, i) && cause == cands[i].cause && confidence == cands[i].score;
        assert cands[i] in cands;
        CandidateScores(patterns, anomalies, cands[i]);
      }
    }
  }

  /** `_determine_root_cause`. */
  method DetermineRootCause(patterns: seq<LogPattern>, anomalies: seq<Anomaly>, ai: AiAnalysis)
    returns (cause: string, confidence: real)
    ensures RootCauseChosen(patterns, anomalies, ai, cause, confidence)
  {
    if ai.confidence.GetOr(0.0) >= 0.7 {
      return ai.rootCause, ai.confidence.value;
    }
    var cands := PatternCandidates(patterns);
    cands := AnomalyCandidates(cands, anomalies);
    if cands == [] {
      return NoRootCause, 0.3;
    }
    var best := FirstBest(cands);
    cause, confidence := cands[best].cause, cands[best].score;
  }

  /** The loop of `_determine_root_cause` over the log patterns. */
  method PatternCandidates(patterns: seq<LogPattern>) returns (cands: seq<Candidate>)
    ensures cands == FlatMap(patterns, PatternCandidate)
  {
    cands := [];
    for t := 0 to |patterns|
      invariant cands == FlatMap(patterns[..t], PatternCandidate)
    {
      var p := patterns[t];
      if p.severity == Critical || p.severity == High {
        cands := cands + [Candidate("Log pattern: " + p.pattern, if p.severity == Critical then 0.8 else 0.6)];
      }
      FlatMapSnoc(patterns, t, PatternCandidate);
    }
    assert patterns[..|patterns|] == patterns;
  }

  /** The loop of `_determine_root_cause` over the anomalies, appending to
      the candidates so far. */
  method AnomalyCandidates(start: seq<Candidate>, anomalies: seq<Anomaly>) returns (cands: seq<Candidate>)
    ensures cands == start + FlatMap(anomalies, AnomalyCandidate)
  {
    cands := start;
    for t := 0 to |anomalies|
      invariant cands == start + FlatMap(anomalies[..t], AnomalyCandidate)
    {
      var a := anomalies[t];
      if AnomalyLevel(a) == Critical {
        cands := cands + [Candidate("Metric anomaly: " + a.metric, 0.7)];
      }
      FlatMapSnoc(anomalies, t, AnomalyCandidate);
    }
    assert anomalies[..|anomalies|] == anomalies;
  }

  /** `max` by score then `index`: the position of the first candidate of
      the highest score. */
  method FirstBest(cands: seq<Candidate>) returns (best: nat)
    requires |cands| > 0
    ensures 0 <= best < |cands| && IsFirstBest(cands, best)
  {
    best := 0;
    for t := 1 to |cands|
      invariant IsFirstBest(cands[..t], best)
    {
      if cands[t].score > cands[best].score {
        best := t;
      }
    }
    assert cands[..|cands|] == cands;
  }

  // ---------------------------------------------------------------------
  // Recommendations

  /** The advice for a log pattern of the table. */
  function PatternAdvice(p: LogPattern): seq<string> {
    if p.pattern == "high_cpu" then
      ["Scale out application instances to distribute CPU load", "Investigate CPU-intensive processes"]
    else if p.pattern == "memory_leak" then
      ["Restart affected services to clear memory", "Investigate memory leaks in application code"]
    else if p.pattern == "database_timeout" then
      ["Check database connection pool settings", "Optimize slow database queries"]
    else []
  }

  /** The advice for an anomaly, by the first rule its metric name (empty
      for a cluster anomaly) matches. */
  function AnomalyAdvice(a: Anomaly): seq<string> {
    var metric := MetricOf(a).GetOr("");
    if Contains(metric, "CPU") then ["Monitor CPU usage and consider horizontal scaling"]
    else if Contains(metric, "Memory") then ["Investigate memory usage patterns"]
    else if Contains(metric, "ResponseTime") then ["Optimize application performance"]
    else []
  }

  const DefaultRecommendations := [
    "Monitor system metrics for patterns",
    "Review recent deployments or configuration changes",
    "Check external dependencies and services",
    "Verify network connectivity and latency"]

  /** The advice the rules give: per pattern, then per anomaly, in order. */
  function SpecificAdvice(patterns: seq<LogPattern>, anomalies: seq<Anomaly>): seq<string> {
    FlatMap(patterns, PatternAdvice) + FlatMap(anomalies, AnomalyAdvice)
  }

  /** The recommendations: the rules' advice, or the four general ones when
      no rule fired. */
  function Recommendations(patterns: seq<LogPattern>, anomalies: seq<Anomaly>): (recs: seq<string>)
    ensures |recs| > 0
  {
    var specific := SpecificAdvice(patterns, anomalies);
    if specific == [] then DefaultRecommendations else specific
  }

  /** The general advice is given exactly when no pattern is one of the
      three advised ones and no anomaly's metric mentions CPU, Memory or
      ResponseTime. */
  lemma {:induction false} DefaultsIffNoRule(patterns: seq<LogPattern>, anomalies: seq<Anomaly>)
    ensures SpecificAdvice(patterns, anomalies) == [] <==>
      (forall i :: 0 <= i < |patterns| ==>
         patterns[i].pattern != "high_cpu" && patterns[i].pattern != "memory_leak"
         && patterns[i].pattern != "database_timeout")
      && (forall j :: 0 <= j < |anomalies| ==>
            var m := MetricOf(anomalies[j]).GetOr("");
            !Contains(m, "CPU") && !Contains(m, "Memory") && !Contains(m, "ResponseTime"))
  {
    PatternsUnadvised(patterns);
    AnomaliesUnadvised(anomalies);
  }

  lemma PatternsUnadvised(patterns: seq<LogPattern>)
    ensures FlatMap(patterns, PatternAdvice) == [] <==>
      forall i :: 0 <= i < |patterns| ==>
        patterns[i].pattern != "high_cpu" && patterns[i].pattern != "memory_leak"
        && patterns[i].pattern != "database_timeout"
  {
    FlatMapEmpty(patterns, PatternAdvice);
  }

  lemma AnomaliesUnadvised(anomalies: seq<Anomaly>)
    ensures FlatMap(anomalies, AnomalyAdvice) == [] <==>
      forall j :: 0 <= j < |anomalies| ==>
        var m := MetricOf(anomalies[j]).GetOr("");
        !Contains(m, "CPU") && !Contains(m, "Memory") && !Contains(m, "ResponseTime")
  {
    FlatMapEmpty(anomalies, AnomalyAdvice);
  }

  /** Every specific recommendation comes from a pattern or an anomaly of
      the input. */
  lemma AdviceSources(patterns: seq<LogPattern>, anomalies: seq<Anomaly>, r: string)
    requires r in SpecificAdvice(patterns, anomalies)
    ensures (exists i :: 0 <= i < |patterns| && r in PatternAdvice(patterns[i]))
      || (exists j :: 0 <= j < |anomalies| && r in AnomalyAdvice(anomalies[j]))
  {
    FlatMapMembers(patterns, PatternAdvice, r);
    FlatMapMembers(anomalies, AnomalyAdvice, r);
  }

  /** `_generate_recommendations`. The root cause it is given does not take
      part. */
  method GenerateRecommendations(rootCause: string, patterns: seq<LogPattern>, anomalies: seq<Anomaly>)
    returns (recs: seq<string>)
    ensures recs == Recommendations(patterns, anomalies)
  {
    recs := AdvisePatterns(patterns);
    recs := AdviseAnomalies(recs, anomalies);
    if recs == [] {
      recs := recs + DefaultRecommendations;
    }
  }

  /** The loop of `_generate_recommendations` over the log patterns. */
  method AdvisePatterns(patterns: seq<LogPattern>) returns (recs: seq<string>)
    ensures recs == FlatMap(patterns, PatternAdvice)
  {
    recs := [];
    for t := 0 to |patterns|
      invariant recs == FlatMap(patterns[..t], PatternAdvice)
    {
      ghost var prev := recs;
      var p := patterns[t];
      if p.pattern == "high_cpu" {
        recs := recs + ["Scale out application instances to distribute CPU load"];
        recs := recs + ["Investigate CPU-intensive processes"];
      } else if p.pattern == "memory_leak" {
        recs := recs + ["Restart affected services to clear memory"];
        recs := recs + ["Investigate memory leaks in application code"];
      } else if p.pattern == "database_timeout" {
        recs := recs + ["Check database connection pool settings"];
        recs := recs + ["Optimize slow database queries"];
      }
      assert recs == prev + PatternAdvice(p);
      FlatMapSnoc(patterns, t, PatternAdvice);
    }
    assert patterns[..|patterns|] == patterns;
  }

  /** The loop of `_generate_recommendations` over the anomalies, appending
      to the advice so far. */
  method AdviseAnomalies(start: seq<string>, anomalies: seq<Anomaly>) returns (recs: seq<string>)
    ensures recs == start + FlatMap(anomalies, AnomalyAdvice)
  {
    recs := start;
    for t := 0 to |anomalies|
      invariant recs == start + FlatMap(anomalies[..t], AnomalyAdvice)
    {
      ghost var prev := recs;
      var metric := MetricOf(anomalies[t]).GetOr("");
      if Contains(metric, "CPU") {
        recs := recs + ["Monitor CPU usage and consider horizontal scaling"];
      } else if Contains(metric, "Memory") {
        recs := recs + ["Investigate memory usage patterns"];
      } else if Contains(metric, "ResponseTime") {
        recs := recs + ["Optimize application performance"];
      }
      assert recs == prev + AnomalyAdvice(anomalies[t]);
      FlatMapSnoc(anomalies, t, AnomalyAdvice);
    }
    assert anomalies[..|anomalies|] == anomalies;
  }

  // ---------------------------------------------------------------------
  // Evidence

  /** A correlation record as the evidence reads it: only its `type` is
      looked at; the record itself becomes the evidence's details. */
  datatype Correlation = Correlation(kind: Option<string>, count: Option<nat>, metric: Option<string>)

  /** One evidence entry, by its `type`. */
  datatype Evidence =
    | PatternEvidence(description: string, severity: Level, examples: seq<string>)
    | AnomalyEvidence(description: string, value: Option<real>, severity: Level)
    | CorrelationEvidence(description: string, details: Correlation)

  /** The evidence of a log pattern: its name and frequency in the text, and
      at most its first two examples. */
  function PatternItem(p: LogPattern): Evidence {
    PatternEvidence("Pattern '" + p.pattern + "' found " + NatToString(p.frequency) + " times",
                    p.severity, p.examples[..Min(2, |p.examples|)])
  }

  function AnomalyItem(a: Anomaly): Evidence {
    AnomalyEvidence("Anomaly in " + MetricOf(a).GetOr("unknown metric"), ValueOf(a), AnomalyLevel(a))
  }

  function CorrelationItem(c: Correlation): Evidence {
    CorrelationEvidence("Temporal correlation: " + c.kind.GetOr("unknown"), c)
  }

  /** Position of an evidence kind in the list: patterns, then anomalies,
      then correlations. */
  function KindRank(e: Evidence): nat {
    match e
    case PatternEvidence(_, _, _) => 0
    case AnomalyEvidence(_, _, _) => 1
    case CorrelationEvidence(_, _) => 2
  }

  /** The evidence list: one entry per pattern, per anomaly and per
      correlation, in that order. */
  predicate EvidenceOf(patterns: seq<LogPattern>, anomalies: seq<Anomaly>, correlations: seq<Correlation>,
                       evidence: seq<Evidence>) {
    && |evidence| == |patterns| + |anomalies| + |correlations|
    && (forall i :: 0 <= i < |patterns| ==> evidence[i] == PatternItem(patterns[i]))
    && (forall j :: 0 <= j < |anomalies| ==> evidence[|patterns| + j] == AnomalyItem(anomalies[j]))
    && (forall l :: 0 <= l < |correlations| ==>
          evidence[|patterns| + |anomalies| + l] == CorrelationItem(correlations[l]))
  }

  /** The entries are grouped by kind, in the order patterns, anomalies,
      correlations. */
  lemma EvidenceGrouped(patterns: seq<LogPattern>, anomalies: seq<Anomaly>, correlations: seq<Correlation>,
                        evidence: seq<Evidence>)
    requires EvidenceOf(patterns, anomalies, correlations, evidence)
    ensures forall i, j :: 0 <= i < j < |evidence| ==> KindRank(evidence[i]) <= KindRank(evidence[j])
    ensures forall i :: 0 <= i < |evidence| ==> (KindRank(evidence[i]) == 0 <==> i < |patterns|)
  {
    var np, na := |patterns|, |anomalies|;
    forall i | 0 <= i < |evidence|
      ensures KindRank(evidence[i]) == if i < np then 0 else if i < np + na then 1 else 2
    {
      if i < np {
        assert evidence[i] == PatternItem(patterns[i]);
      } else if i < np + na {
        var j := i - np;
        assert evidence[np + j] == AnomalyItem(anomalies[j]);
      } else {
        var l := i - np - na;
        assert evidence[np + na + l] == CorrelationItem(correlations[l]);
      }
    }
  }

  /** The description of a pattern's evidence gives its frequency back. */
  lemma PatternItemDeterminesFrequency(p1: LogPattern, p2: LogPattern)
    requires p1.pattern == p2.pattern
    ensures PatternItem(p1).description == PatternItem(p2).description <==> p1.frequency == p2.frequency
  {
    var head := "Pattern '" + p1.pattern + "' found ";
    var n1, n2 := NatToString(p1.frequency), NatToString(p2.frequency);
    var d1, d2 := head + n1 + " times", head + n2 + " times";
    if d1 == d2 {
      assert |n1| == |n2|;
      assert d1[|head|..|head| + |n1|] == n1;
      assert d2[|head|..|head| + |n2|] == n2;
      NatToStringInjective(p1.frequency, p2.frequency);
    }
  }

  /** `_compile_evidence`. */
  method CompileEvidence(patterns: seq<LogPattern>, anomalies: seq<Anomaly>, correlations: seq<Correlation>)
    returns (evidence: seq<Evidence>)
    ensures EvidenceOf(patterns, anomalies, correlations, evidence)
  {
    evidence := [];
    for t := 0 to |patterns|
      invariant |evidence| == t
      invariant forall i :: 0 <= i < t ==> evidence[i] == PatternItem(patterns[i])
    {
      var p := patterns[t];
      evidence := evidence + [PatternEvidence("Pattern '" + p.pattern + "' found " + NatToString(p.frequency) + " times",
                                              p.severity, p.examples[..Min(2, |p.examples|)])];
    }
    for t := 0 to |anomalies|
      invariant |evidence| == |patterns| + t
      invariant forall i :: 0 <= i < |patterns| ==> evidence[i] == PatternItem(patterns[i])
      invariant forall j :: 0 <= j < t ==> evidence[|patterns| + j] == AnomalyItem(anomalies[j])
    {
      var a := anomalies[t];
      evidence := evidence + [AnomalyEvidence("Anomaly in " + MetricOf(a).GetOr("unknown metric"),
                                              ValueOf(a), AnomalyLevel(a))];
    }
    for t := 0 to |correlations|
      invariant |evidence| == |patterns| + |anomalies| + t
      invariant forall i :: 0 <= i < |patterns| ==> evidence[i] == PatternItem(patterns[i])
      invariant forall j :: 0 <= j < |anomalies| ==> evidence[|patterns| + j] == AnomalyItem(anomalies[j])
      invariant forall l :: 0 <= l < t ==> evidence[|patterns| + |anomalies| + l] == CorrelationItem(correlations[l])
    {
      var c := correlations[t];
      evidence := evidence + [CorrelationEvidence("Temporal correlation: " + c.kind.GetOr("unknown"), c)];
    }
  }

  // ---------------------------------------------------------------------
  // The diagnosis of an incident

  /** `DiagnosticResult`. The analysis duration is a number of seconds the
      caller measures. */
  datatype DiagnosticResult = DiagnosticResult(
    incidentId: Option<string>,
    rootCause: string,
    confidence: real,
    evidence: seq<Evidence>,
    recommendations: seq<string>,
    analysisDuration: real,
    patternsDetected: seq<string>,
    anomalies: seq<Anomaly>)

  /** `analyze_incident` after the data is collected: the logs, the anomaly
      list of the detectors, the correlations, the model's answer and the
      measured duration are its inputs. */
  method AnalyzeIncident(incidentId: Option<string>, logs: seq<LogEntry>, known: seq<KnownPattern>,
                         matches: Matcher, anomalies: seq<Anomaly>, correlations: seq<Correlation>,
                         ai: AiAnalysis, duration: real)
    returns (result: DiagnosticResult)
    requires KeyedByName(known)
    ensures result.incidentId == incidentId && result.anomalies == anomalies
    ensures result.analysisDuration == duration
    ensures exists patterns ::
      && Analyzed(logs, known, matches, patterns)
      && result.patternsDetected == Names(patterns)
      && RootCauseChosen(patterns, anomalies, ai, result.rootCause, result.confidence)
      && result.recommendations == Recommendations(patterns, anomalies)
      && EvidenceOf(patterns, anomalies, correlations, result.evidence)
  {
    var patterns := AnalyzeLogPatterns(logs, known, matches);
    var cause, confidence := DetermineRootCause(patterns, anomalies, ai);
    var recs := GenerateRecommendations(cause, patterns, anomalies);
    var evidence := CompileEvidence(patterns, anomalies, correlations);
    result := DiagnosticResult(incidentId, cause, confidence, evidence, recs, duration,
                               Names(patterns), anomalies);
  }

  /** The `diagnosis` part of the result event. */
  datatype DiagnosisReport = DiagnosisReport(
    rootCause: string,
    confidence: real,
    evidence: seq<Evidence>,
    patternsDetected: seq<string>,
    anomalies: seq<Anomaly>)

  /** The event `_send_diagnostic_result` sends to the orchestrator. The
      confidence travels inside `diagnosis` only; the event has no
      top-level confidence. Its timestamp and source agent are left out. */
  datatype ResultEvent = ResultEvent(
    eventType: string,
    incidentId: Option<string>,
    agentType: string,
    diagnosis: DiagnosisReport,
    recommendations: seq<string>,
    analysisDuration: real)

  function ResultEventOf(r: DiagnosticResult): ResultEvent {
    ResultEvent("diagnostic_result", r.incidentId, "diagnostic",
                DiagnosisReport(r.rootCause, r.confidence, r.evidence, r.patternsDetected, r.anomalies),
                r.recommendations, r.analysisDuration)
  }
}
