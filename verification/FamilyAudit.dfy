/**
 The multi-family audit: each family's devices are counted, merged into a checkpoint, and the
 checkpoint is written after every family. A `Counter` is a multiset, and so is the table of
 signatures, whose `count` is the multiplicity; their example lists and shapes are left out.
 */
module FamilyAudit {
  datatype Support =
    | Hidden | ParserGap | RegistrationOnly | RecognizedOnly | PlatformMismatch
    | SupportedVerified | SupportedUnverified | NormalizedOnly

  /** The JSON text of a signature's key shows its three parts, so the key is those parts. */
  datatype Key = Key(descriptor: string, category: string, support: Support)

  type Counts = multiset<Support>

  /** What one raw device row comes to: its descriptor and profile facts are given. */
  datatype DeviceRow = DeviceRow(
    id: string, deleted: bool, descriptor: string, category: string,
    hidden: bool, registrationOnly: bool, expected: string, actual: string, hardwareVerified: bool)

  datatype Analysis = Analysis(counts: Counts, raw: nat, normalized: nat, signatures: multiset<Key>)

  // ---- analyze_family ----

  /** `_support_state`; the empty text stands for no expected platform. */
  function SupportOf(row: DeviceRow, parsed: bool): (s: Support)
    ensures s != NormalizedOnly
  {
    if row.hidden then Hidden
    else if !parsed then ParserGap
    else if row.registrationOnly then RegistrationOnly
    else if row.expected == "" then RecognizedOnly
    else if row.actual != row.expected then PlatformMismatch
    else if row.hardwareVerified then SupportedVerified
    else SupportedUnverified
  }

  /** The keys of the first `n` rows, deleted ones left out. */
  function KeysOf(rows: seq<DeviceRow>, known: set<string>, n: nat): (keys: seq<Key>)
    requires n <= |rows|
    ensures |keys| <= n && forall k | k in keys :: k.support != NormalizedOnly
  {
    if n == 0 then []
    else
      var row := rows[n - 1];
      KeysOf(rows, known, n - 1)
      + if row.deleted then [] else [Key(row.descriptor, row.category, SupportOf(row, row.id in known))]
  }

  function IdsOf(rows: seq<DeviceRow>, n: nat): set<string>
    requires n <= |rows|
  {
    set i | 0 <= i < n && !rows[i].deleted && rows[i].id != "" :: rows[i].id
  }

  function SupportsOf(keys: seq<Key>): (supports: seq<Support>)
    ensures |supports| == |keys| && forall i | 0 <= i < |keys| :: supports[i] == keys[i].support
  {
    seq(|keys|, i requires 0 <= i < |keys| => keys[i].support)
  }

  function Without(counts: Counts): Counts {
    counts[NormalizedOnly := 0]
  }

  /** The analysis of a family whose parser knew the ids `known` in `normalized` devices. */
  function AnalysisOf(rows: seq<DeviceRow>, known: set<string>, normalized: nat): Analysis {
    var keys := KeysOf(rows, known, |rows|);
    Analysis(multiset(SupportsOf(keys))[NormalizedOnly := |known - IdsOf(rows, |rows|)|], |keys|, normalized, multiset(keys))
  }

  lemma SupportsSnoc(keys: seq<Key>, k: Key)
    ensures multiset(SupportsOf(keys + [k])) == multiset(SupportsOf(keys)) + multiset{k.support}
  {
    assert SupportsOf(keys + [k]) == SupportsOf(keys) + [k.support];
  }

  lemma SupportsLackNormalizedOnly(keys: seq<Key>)
    requires forall k | k in keys :: k.support != NormalizedOnly
    ensures multiset(SupportsOf(keys))[NormalizedOnly] == 0
  {
    assert forall i | 0 <= i < |keys| :: keys[i] in keys;
    assert NormalizedOnly !in SupportsOf(keys);
  }

  lemma IdsNext(rows: seq<DeviceRow>, n: nat)
    requires n < |rows|
    ensures IdsOf(rows, n + 1) == IdsOf(rows, n) + if rows[n].deleted || rows[n].id == "" then {} else {rows[n].id}
  {
  }

  method AnalyzeFamily(rows: seq<DeviceRow>, known: set<string>, normalized: nat) returns (r: Analysis)
    ensures r == AnalysisOf(rows, known, normalized)
  {
    var counts: Counts, signatures: multiset<Key>, seen: set<string> := multiset{}, multiset{}, {};
    ghost var keys: seq<Key> := [];
    for n := 0 to |rows|
      invariant keys == KeysOf(rows, known, n) && seen == IdsOf(rows, n)
      invariant counts == multiset(SupportsOf(keys)) && signatures == multiset(keys)
    {
      var row := rows[n];
      IdsNext(rows, n);
      if !row.deleted {
        var key := Key(row.descriptor, row.category, SupportOf(row, row.id in known));
        SupportsSnoc(keys, key);
        counts := counts + multiset{key.support};
        if row.id != "" { seen := seen + {row.id}; }
        signatures := signatures + multiset{key};
        keys := keys + [key];
      }
    }
    SupportsLackNormalizedOnly(keys);
    var only := known - seen;
    RawCount(keys, |only|);
    counts := counts[NormalizedOnly := counts[NormalizedOnly] + |only|];
    return Analysis(counts, |counts| - counts[NormalizedOnly], normalized, signatures);
  }

  lemma RawCount(keys: seq<Key>, only: nat)
    ensures var counts := multiset(SupportsOf(keys))[NormalizedOnly := only];
            multiset(SupportsOf(keys))[NormalizedOnly] == 0 ==> |counts| - counts[NormalizedOnly] == |keys|
  {
    var counts := multiset(SupportsOf(keys));
    assert |counts| == |keys|;
    assert |counts[NormalizedOnly := only]| == |counts| - counts[NormalizedOnly] + only;
  }

  /** Some list of keys accounts for the signatures and for all counts but the normalized-only ones. */
  ghost predicate Agree(counts: Counts, signatures: multiset<Key>) {
    exists keys: seq<Key> :: Accounts(keys, counts, signatures)
  }

  ghost predicate Accounts(keys: seq<Key>, counts: Counts, signatures: multiset<Key>) {
    && (forall k | k in keys :: k.support != NormalizedOnly)
    && signatures == multiset(keys) && Without(counts) == multiset(SupportsOf(keys))
  }

  ghost predicate IsAnalysis(a: Analysis) {
    Agree(a.counts, a.signatures) && a.raw == |Without(a.counts)|
  }

  lemma AnalysisAgrees(rows: seq<DeviceRow>, known: set<string>, normalized: nat)
    ensures IsAnalysis(AnalysisOf(rows, known, normalized))
  {
    var a, keys := AnalysisOf(rows, known, normalized), KeysOf(rows, known, |rows|);
    SupportsLackNormalizedOnly(keys);
    assert Without(a.counts) == multiset(SupportsOf(keys));
    assert Accounts(keys, a.counts, a.signatures);
  }

  /** The signature counts add up to the totals without the normalized-only ones. */
  lemma AgreementOfSums(counts: Counts, signatures: multiset<Key>)
    requires Agree(counts, signatures)
    ensures |signatures| == |counts| - counts[NormalizedOnly]
  {
    var keys :| Accounts(keys, counts, signatures);
    assert |multiset(keys)| == |keys| && |multiset(SupportsOf(keys))| == |keys|;
    assert |counts[NormalizedOnly := 0]| == |counts| - counts[NormalizedOnly];
  }

  lemma AgreementIsAdditive(a: Counts, x: multiset<Key>, b: Counts, y: multiset<Key>)
    requires Agree(a, x) && Agree(b, y)
    ensures Agree(a + b, x + y)
  {
    var p :| Accounts(p, a, x);
    var q :| Accounts(q, b, y);
    assert SupportsOf(p + q) == SupportsOf(p) + SupportsOf(q);
    assert Without(a + b) == Without(a) + Without(b);
    assert Accounts(p + q, a + b, x + y);
  }

  // ---- The checkpoint ----

  datatype Status = Ok | Empty | Error

  datatype Row = Row(index: nat, tag: string, status: Status, counts: Counts, raw: nat)

  datatype Audit = Audit(totals: Counts, rows: seq<Row>, processed: seq<string>, signatures: multiset<Key>)

  /** A family either fails, or is merged; after the merge, reporting it may still fail. */
  datatype Outcome = Failed | Merged(analysis: Analysis) | FailedLate(analysis: Analysis)

  datatype Event =
    | Resume                                                // a run starts and loads the checkpoint
    | Visit(index: nat, tag: string, outcome: Outcome)      // a family, up to the written checkpoint
    | Interrupt                                             // the run ends, whatever it had not written is lost

  datatype Run = Run(audit: Audit, completed: set<string>)

  datatype System = System(disk: Audit, run: seq<Run>)      // at most one run

  function DropTag(rows: seq<Row>, tag: string): (kept: seq<Row>)
    ensures forall r :: r in kept <==> r in rows && r.tag != tag
  {
    if rows == [] then []
    else DropTag(rows[..|rows| - 1], tag) + if rows[|rows| - 1].tag == tag then [] else [rows[|rows| - 1]]
  }

  function Relabelled(r: Row): Row {
    if r.status == Ok && r.raw == 0 then r.(status := Empty) else r
  }

  function Relabel(a: Audit): Audit {
    a.(rows := seq(|a.rows|, i requires 0 <= i < |a.rows| => Relabelled(a.rows[i])))
  }

  function RecordOf(index: nat, tag: string, a: Analysis): Row {
    Row(index, tag, if a.raw == 0 then Empty else Ok, a.counts, a.raw)
  }

  /** `merge_family_result`. */
  function Merge(s: Audit, row: Row, a: Analysis): Audit {
    Audit(s.totals + a.counts, s.rows + [row], s.processed + [row.tag], s.signatures + a.signatures)
  }

  function ErrorRow(index: nat, tag: string): Row {
    Row(index, tag, Error, multiset{}, 0)
  }

  function AuditAfter(s: Audit, index: nat, tag: string, outcome: Outcome): Audit {
    var cleared := s.(rows := DropTag(s.rows, tag));
    match outcome
    case Failed => cleared.(rows := cleared.rows + [ErrorRow(index, tag)])
    case Merged(a) => Merge(cleared, RecordOf(index, tag, a), a)
    case FailedLate(a) =>
      var merged := Merge(cleared, RecordOf(index, tag, a), a);
      merged.(rows := merged.rows + [ErrorRow(index, tag)])
  }

  predicate Skipped(s: System, e: Event) {
    e.Visit? && s.run != [] && e.tag in s.run[0].completed
  }

  predicate Possible(s: System, e: Event) {
    e.Visit? ==> s.run != []
  }

  function Step(s: System, e: Event): System
    requires Possible(s, e)
  {
    match e
    case Resume => System(s.disk, [Run(Relabel(s.disk), set t | t in s.disk.processed)])
    case Interrupt => System(s.disk, [])
    case Visit(index, tag, outcome) =>
      if Skipped(s, e) then s
      else
        var audit := AuditAfter(s.run[0].audit, index, tag, outcome);
        System(audit, [Run(audit, s.run[0].completed + if outcome.Merged? then {tag} else {})])
  }

  predicate Runnable(s: System, events: seq<Event>)
    decreases |events|
  {
    events == [] || (Possible(s, events[0]) && Runnable(Step(s, events[0]), events[1..]))
  }

  function After(s: System, events: seq<Event>): System
    requires Runnable(s, events)
    decreases |events|
  {
    if events == [] then s else After(Step(s, events[0]), events[1..])
  }

  function Fresh(): System {
    System(Audit(multiset{}, [], [], multiset{}), [])
  }

  /** Every outcome comes from an analysis. */
  ghost predicate Sound(events: seq<Event>) {
    forall e | e in events && e.Visit? && !e.outcome.Failed? :: IsAnalysis(e.outcome.analysis)
  }

  // ---- What every checkpoint keeps ----

  function SumRows(rows: seq<Row>): Counts {
    if rows == [] then multiset{} else SumRows(rows[..|rows| - 1]) + rows[|rows| - 1].counts
  }

  predicate OneRowPerTag(rows: seq<Row>) {
    forall i, j | 0 <= i < j < |rows| :: rows[i].tag != rows[j].tag
  }

  /** At most one row of a tag is not an error. */
  predicate OneCountedRowPerTag(rows: seq<Row>) {
    forall i, j | 0 <= i < j < |rows| && rows[i].tag == rows[j].tag :: rows[i].status == Error || rows[j].status == Error
  }

  predicate RowsAreHonest(rows: seq<Row>) {
    forall r | r in rows ::
      && (r.status == Error ==> r.counts == multiset{} && r.raw == 0)
      && (r.status == Empty <==> r.status != Error && r.raw == 0)
      && (r.status != Error ==> r.raw == |Without(r.counts)|)
  }

  predicate DistinctTags(tags: seq<string>) {
    forall i, j | 0 <= i < j < |tags| :: tags[i] != tags[j]
  }

  ghost predicate HasCounted(rows: seq<Row>, tag: string) {
    exists r :: r in rows && r.tag == tag && r.status != Error
  }

  ghost predicate ProcessedHaveRows(a: Audit) {
    forall tag :: tag in a.processed <==> HasCounted(a.rows, tag)
  }

  ghost predicate Conserved(a: Audit) {
    && a.totals == SumRows(a.rows) && Agree(a.totals, a.signatures)
    && OneCountedRowPerTag(a.rows) && RowsAreHonest(a.rows)
    && DistinctTags(a.processed) && ProcessedHaveRows(a)
  }

  /** A running audit skips processed tags only; those that it does not skip failed after their merge. */
  ghost predicate Inv(s: System) {
    Conserved(s.disk) && (s.run != [] ==> s.run[0].audit == s.disk && forall t | t in s.run[0].completed :: t in s.disk.processed)
  }

  /** The counts of the rows of one tag. */
  function TagSum(rows: seq<Row>, tag: string): Counts {
    if rows == [] then multiset{}
    else
      var last := rows[|rows| - 1];
      TagSum(rows[..|rows| - 1], tag) + if last.tag == tag then last.counts else multiset{}
  }

  lemma SumSnoc(rows: seq<Row>, row: Row)
    ensures SumRows(rows + [row]) == SumRows(rows) + row.counts
  {
    assert (rows + [row])[..|rows|] == rows;
  }

  lemma TagSumSnoc(rows: seq<Row>, row: Row, tag: string)
    ensures TagSum(rows + [row], tag) == TagSum(rows, tag) + if row.tag == tag then row.counts else multiset{}
  {
    assert (rows + [row])[..|rows|] == rows;
  }

  lemma DropLast(rows: seq<Row>, tag: string)
    requires rows != []
    ensures var front, last := rows[..|rows| - 1], rows[|rows| - 1];
            DropTag(rows, tag) == if last.tag == tag then DropTag(front, tag) else DropTag(front, tag) + [last]
  {
  }

  lemma {:induction false} DropSplitsSum(rows: seq<Row>, tag: string)
    ensures SumRows(rows) == SumRows(DropTag(rows, tag)) + TagSum(rows, tag)
  {
    if rows != [] {
      var front, last := rows[..|rows| - 1], rows[|rows| - 1];
      DropSplitsSum(front, tag);
      DropLast(rows, tag);
      SumSnoc(DropTag(front, tag), last);
    }
  }

  lemma {:induction false} DropSplitsTagSum(rows: seq<Row>, tag: string, u: string)
    ensures TagSum(DropTag(rows, tag), u) == if u == tag then multiset{} else TagSum(rows, u)
  {
    if rows != [] {
      var front, last := rows[..|rows| - 1], rows[|rows| - 1];
      DropSplitsTagSum(front, tag, u);
      DropLast(rows, tag);
      TagSumSnoc(DropTag(front, tag), last, u);
    }
  }

  lemma {:induction false} ErrorsSumToNothing(rows: seq<Row>, tag: string)
    requires RowsAreHonest(rows) && !HasCounted(rows, tag)
    ensures TagSum(rows, tag) == multiset{}
  {
    if rows != [] {
      var front, last := rows[..|rows| - 1], rows[|rows| - 1];
      assert last in rows && forall r | r in front :: r in rows;
      ErrorsSumToNothing(front, tag);
    }
  }

  lemma {:induction false} DropKeepsOrder(rows: seq<Row>, tag: string)
    requires OneRowPerTag(rows)
    ensures OneRowPerTag(DropTag(rows, tag))
  {
    if rows != [] {
      var front, last := rows[..|rows| - 1], rows[|rows| - 1];
      DropKeepsOrder(front, tag);
      assert forall r | r in DropTag(front, tag) :: r in front;
    }
  }

  lemma {:induction false} DropKeepsCounted(rows: seq<Row>, tag: string)
    requires OneCountedRowPerTag(rows)
    ensures OneCountedRowPerTag(DropTag(rows, tag))
  {
    if rows != [] {
      var front, last := rows[..|rows| - 1], rows[|rows| - 1];
      DropKeepsCounted(front, tag);
      assert forall r | r in DropTag(front, tag) :: r in front;
    }
  }

  lemma DroppedIsGone(rows: seq<Row>, tag: string)
    ensures forall i | 0 <= i < |DropTag(rows, tag)| :: DropTag(rows, tag)[i].tag != tag
  {
    var kept := DropTag(rows, tag);
    forall i | 0 <= i < |kept| ensures kept[i].tag != tag {
      assert kept[i] in kept;
    }
  }

  // A visit clears the rows of its tag, merges or not, and may add an error row.
  lemma ClearKeepsConserved(a: Audit, tag: string)
    requires Conserved(a) && tag !in a.processed
    ensures Conserved(a.(rows := DropTag(a.rows, tag)))
  {
    var kept := DropTag(a.rows, tag);
    ErrorsSumToNothing(a.rows, tag);
    DropSplitsSum(a.rows, tag);
    DropKeepsCounted(a.rows, tag);
    forall u ensures HasCounted(kept, u) <==> HasCounted(a.rows, u) {
      if r :| r in a.rows && r.tag == u && r.status != Error {
        assert r in kept;
      }
    }
  }

  lemma HasCountedSnoc(rows: seq<Row>, row: Row, tag: string)
    ensures HasCounted(rows + [row], tag) <==> HasCounted(rows, tag) || (row.tag == tag && row.status != Error)
  {
    assert row in rows + [row];
    if r :| r in rows && r.tag == tag && r.status != Error {
      assert r in rows + [row];
    }
  }

  lemma ErrorKeepsConserved(a: Audit, index: nat, tag: string)
    requires Conserved(a)
    ensures Conserved(a.(rows := a.rows + [ErrorRow(index, tag)]))
  {
    SumSnoc(a.rows, ErrorRow(index, tag));
    forall u ensures HasCounted(a.rows + [ErrorRow(index, tag)], u) <==> HasCounted(a.rows, u) {
      HasCountedSnoc(a.rows, ErrorRow(index, tag), u);
    }
  }

  lemma MergeKeepsConserved(a: Audit, row: Row, x: Analysis)
    requires Conserved(a) && row.tag !in a.processed && IsAnalysis(x)
    requires row.status != Error && row.counts == x.counts && RowsAreHonest([row])
    requires forall i | 0 <= i < |a.rows| :: a.rows[i].tag != row.tag
    ensures Conserved(Merge(a, row, x))
  {
    SumSnoc(a.rows, row);
    AgreementIsAdditive(a.totals, a.signatures, x.counts, x.signatures);
    assert row in [row];
    forall u ensures u in a.processed + [row.tag] <==> HasCounted(a.rows + [row], u) {
      HasCountedSnoc(a.rows, row, u);
    }
  }

  lemma RelabelChangesNothing(a: Audit)
    requires Labelled(a.rows)
    ensures Relabel(a) == a
  {
    forall i | 0 <= i < |a.rows| ensures Relabelled(a.rows[i]) == a.rows[i] {
      assert a.rows[i] in a.rows;
    }
  }

  /** No row without devices is labelled as a success. */
  predicate Labelled(rows: seq<Row>) {
    forall r | r in rows :: r.status == Ok ==> r.raw > 0
  }

  lemma SoundParts(events: seq<Event>)
    requires events != [] && Sound(events)
    ensures Sound([events[0]]) && Sound(events[1..])
  {
    assert events[0] in events && forall e | e in events[1..] :: e in events;
  }

  lemma VisitKeepsConserved(a: Audit, index: nat, tag: string, outcome: Outcome)
    requires Conserved(a) && tag !in a.processed
    requires !outcome.Failed? ==> IsAnalysis(outcome.analysis)
    ensures Conserved(AuditAfter(a, index, tag, outcome))
  {
    var cleared := a.(rows := DropTag(a.rows, tag));
    ClearKeepsConserved(a, tag);
    if outcome.Failed? {
      ErrorKeepsConserved(cleared, index, tag);
    } else {
      var x := outcome.analysis;
      DroppedIsGone(a.rows, tag);
      MergeKeepsConserved(cleared, RecordOf(index, tag, x), x);
      if outcome.FailedLate? {
        ErrorKeepsConserved(Merge(cleared, RecordOf(index, tag, x), x), index, tag);
      }
    }
  }

  /** A run comes back to a family that failed after its merge. */
  predicate Returns(s: System, e: Event) {
    e.Visit? && !Skipped(s, e) && e.tag in s.disk.processed
  }

  lemma StepKeepsInv(s: System, e: Event)
    requires Inv(s) && Possible(s, e) && !Returns(s, e) && Sound([e])
    ensures Inv(Step(s, e))
  {
    assert e in [e];
    match e
    case Resume => RelabelChangesNothing(s.disk);
    case Interrupt =>
    case Visit(index, tag, outcome) =>
      if !Skipped(s, e) {
        VisitKeepsConserved(s.disk, index, tag, outcome);
      }
  }

  // ---- Late failures ----

  /**
   What the visits leave behind: the tags that a run skips, and those that failed in it after their merge, with the
   counts of their rows.
   */
  datatype Ledger = Ledger(completed: set<string>, late: map<string, Counts>)

  predicate Revisits(l: Ledger, e: Event) {
    e.Visit? && e.tag !in l.completed && e.tag in l.late
  }

  function Noted(l: Ledger, e: Event): Ledger {
    match e
    case Visit(_, tag, outcome) =>
      if tag in l.completed then l
      else if outcome.Merged? then Ledger(l.completed + {tag}, l.late - {tag})
      else if outcome.FailedLate? then l.(late := l.late[tag := outcome.analysis.counts])
      else if tag in l.late then l.(late := l.late[tag := multiset{}])
      else l
    case _ => Ledger(l.completed + l.late.Keys, map[])
  }

  /** No run visits a family again that failed in it after the merge. */
  predicate NoRevisit(l: Ledger, events: seq<Event>)
    decreases |events|
  {
    events == [] || (!Revisits(l, events[0]) && NoRevisit(Noted(l, events[0]), events[1..]))
  }

  /** Such a visit never gets as far as the merge. */
  predicate MergesOnce(l: Ledger, events: seq<Event>)
    decreases |events|
  {
    || events == []
    || (!(Revisits(l, events[0]) && !events[0].outcome.Failed?) && MergesOnce(Noted(l, events[0]), events[1..]))
  }

  function DroppedBy(l: Ledger, e: Event): Counts {
    if Revisits(l, e) then l.late[e.tag] else multiset{}
  }

  /** The counts of all rows that such visits replace. */
  function Dropped(l: Ledger, events: seq<Event>): Counts
    decreases |events|
  {
    if events == [] then multiset{} else DroppedBy(l, events[0]) + Dropped(Noted(l, events[0]), events[1..])
  }

  ghost predicate Tracks(s: System, l: Ledger) {
    && l.completed !! l.late.Keys && Labelled(s.disk.rows)
    && (forall t :: t in s.disk.processed <==> t in l.completed || t in l.late)
    && (if s.run == [] then l.late == map[] else s.run[0].audit == s.disk && s.run[0].completed == l.completed)
    && forall t :: CountsLate(s.disk.rows, l, t)
  }

  // What a visit that is not skipped does to the counts of one tag, to the totals, and to the rest.
  lemma VisitTagSum(a: Audit, index: nat, tag: string, outcome: Outcome, u: string)
    ensures TagSum(AuditAfter(a, index, tag, outcome).rows, u)
         == if u != tag then TagSum(a.rows, u) else if outcome.Failed? then multiset{} else outcome.analysis.counts
  {
    var kept, error := DropTag(a.rows, tag), ErrorRow(index, tag);
    DropSplitsTagSum(a.rows, tag, u);
    if outcome.Failed? {
      TagSumSnoc(kept, error, u);
    } else {
      var row := RecordOf(index, tag, outcome.analysis);
      TagSumSnoc(kept, row, u);
      TagSumSnoc(kept + [row], error, u);
    }
  }

  lemma VisitRowSum(a: Audit, index: nat, tag: string, outcome: Outcome)
    ensures SumRows(AuditAfter(a, index, tag, outcome).rows)
         == SumRows(DropTag(a.rows, tag)) + if outcome.Failed? then multiset{} else outcome.analysis.counts
  {
    var kept, error := DropTag(a.rows, tag), ErrorRow(index, tag);
    if outcome.Failed? {
      SumSnoc(kept, error);
    } else {
      var row := RecordOf(index, tag, outcome.analysis);
      SumSnoc(kept, row);
      SumSnoc(kept + [row], error);
    }
  }

  lemma Regroup(kept: Counts, gone: Counts, d: Counts, x: Counts)
    ensures ((kept + gone) + d) + x == (kept + x) + (d + gone)
  {
  }

  lemma VisitTotals(a: Audit, index: nat, tag: string, outcome: Outcome, d: Counts)
    requires a.totals == SumRows(a.rows) + d
    ensures var b := AuditAfter(a, index, tag, outcome); b.totals == SumRows(b.rows) + (d + TagSum(a.rows, tag))
  {
    var x := if outcome.Failed? then multiset{} else outcome.analysis.counts;
    DropSplitsSum(a.rows, tag);
    VisitRowSum(a, index, tag, outcome);
    Regroup(SumRows(DropTag(a.rows, tag)), TagSum(a.rows, tag), d, x);
    assert AuditAfter(a, index, tag, outcome).totals == a.totals + x;
  }

  lemma VisitRest(a: Audit, index: nat, tag: string, outcome: Outcome)
    requires Labelled(a.rows)
    ensures var b := AuditAfter(a, index, tag, outcome);
            Labelled(b.rows) && b.processed == a.processed + if outcome.Failed? then [] else [tag]
  {
  }

  /** Which tags the ledger knows after a visit, and the counts that it has for a tag. */
  lemma NotedVisit(l: Ledger, index: nat, tag: string, outcome: Outcome, t: string)
    requires tag !in l.completed && l.completed !! l.late.Keys
    ensures var l' := Noted(l, Visit(index, tag, outcome));
            && l'.completed == l.completed + (if outcome.Merged? then {tag} else {}) && l'.completed !! l'.late.Keys
            && (t in l'.completed || t in l'.late <==> t in l.completed || t in l.late || (t == tag && !outcome.Failed?))
            && (t !in l'.completed && t != tag && t in l.late ==> t in l'.late && l'.late[t] == l.late[t])
            && (t == tag && t in l'.late ==> l'.late[t] == if outcome.Failed? then multiset{} else outcome.analysis.counts)
  {
  }

  ghost predicate CountsLate(rows: seq<Row>, l: Ledger, t: string) {
    t !in l.completed ==> TagSum(rows, t) == if t in l.late then l.late[t] else multiset{}
  }

  lemma VisitCountsLate(a: Audit, l: Ledger, index: nat, tag: string, outcome: Outcome, t: string)
    requires tag !in l.completed && l.completed !! l.late.Keys && CountsLate(a.rows, l, t)
    ensures CountsLate(AuditAfter(a, index, tag, outcome).rows, Noted(l, Visit(index, tag, outcome)), t)
  {
    VisitTagSum(a, index, tag, outcome, t);
    NotedVisit(l, index, tag, outcome, t);
  }

  lemma VisitTracks(s: System, l: Ledger, index: nat, tag: string, outcome: Outcome)
    requires Tracks(s, l) && s.run != [] && tag !in l.completed
    ensures var e := Visit(index, tag, outcome);
            && Tracks(Step(s, e), Noted(l, e))
            && Step(s, e).disk.processed == s.disk.processed + if outcome.Failed? then [] else [tag]
  {
    var e := Visit(index, tag, outcome);
    var l', s' := Noted(l, e), Step(s, e);
    VisitRest(s.disk, index, tag, outcome);
    NotedVisit(l, index, tag, outcome, tag);
    assert s'.disk == AuditAfter(s.disk, index, tag, outcome);
    forall t
      ensures t in s'.disk.processed <==> t in l'.completed || t in l'.late
      ensures CountsLate(s'.disk.rows, l', t)
    {
      NotedVisit(l, index, tag, outcome, t);
      VisitCountsLate(s.disk, l, index, tag, outcome, t);
    }
  }

  lemma LoadingTracks(s: System, l: Ledger, e: Event)
    requires Tracks(s, l) && !e.Visit?
    ensures Tracks(Step(s, e), Noted(l, e)) && Step(s, e).disk == s.disk
  {
    RelabelChangesNothing(s.disk);
    forall t ensures CountsLate(s.disk.rows, Noted(l, e), t) {
      assert CountsLate(s.disk.rows, l, t);
    }
  }

  lemma StepTracks(s: System, l: Ledger, e: Event)
    requires Tracks(s, l) && Possible(s, e)
    ensures Tracks(Step(s, e), Noted(l, e))
    ensures Step(s, e).disk.processed
         == s.disk.processed + if e.Visit? && e.tag !in l.completed && !e.outcome.Failed? then [e.tag] else []
  {
    assert s.disk.processed + [] == s.disk.processed;
    if !e.Visit? {
      LoadingTracks(s, l, e);
    } else if e.tag !in l.completed {
      VisitTracks(s, l, e.index, e.tag, e.outcome);
    }
  }

  lemma StepTotals(s: System, l: Ledger, e: Event, d: Counts)
    requires Tracks(s, l) && Possible(s, e) && s.disk.totals == SumRows(s.disk.rows) + d
    ensures Step(s, e).disk.totals == SumRows(Step(s, e).disk.rows) + (d + DroppedBy(l, e))
  {
    assert d + multiset{} == d;
    if e.Visit? && e.tag !in l.completed {
      assert CountsLate(s.disk.rows, l, e.tag);
      assert TagSum(s.disk.rows, e.tag) == DroppedBy(l, e);
      VisitTotals(s.disk, e.index, e.tag, e.outcome, d);
    }
  }

  /** The totals exceed the sum of the rows by exactly what visits to late failures replaced. */
  lemma {:induction false} TotalsExceedRows(s: System, l: Ledger, events: seq<Event>, d: Counts)
    requires Tracks(s, l) && Runnable(s, events) && s.disk.totals == SumRows(s.disk.rows) + d
    ensures After(s, events).disk.totals == SumRows(After(s, events).disk.rows) + (d + Dropped(l, events))
    decreases |events|
  {
    if events == [] {
      assert d + multiset{} == d;
    } else {
      var e := events[0];
      StepTracks(s, l, e);
      StepTotals(s, l, e, d);
      TotalsExceedRows(Step(s, e), Noted(l, e), events[1..], d + DroppedBy(l, e));
      Associate(d, DroppedBy(l, e), Dropped(Noted(l, e), events[1..]));
    }
  }

  lemma Associate(a: Counts, b: Counts, c: Counts)
    ensures (a + b) + c == a + (b + c)
  {
  }

  lemma {:induction false} RepeatsStay(s: System, events: seq<Event>)
    requires Runnable(s, events) && (s.run != [] ==> s.run[0].audit.processed == s.disk.processed)
    ensures s.disk.processed <= After(s, events).disk.processed
    decreases |events|
  {
    if events != [] {
      RepeatsStay(Step(s, events[0]), events[1..]);
    }
  }

  /** A family is merged at most once exactly when no run merges one again that failed in it after the merge. */
  lemma {:induction false} TagsStayDistinctIff(s: System, l: Ledger, events: seq<Event>)
    requires Tracks(s, l) && Runnable(s, events) && DistinctTags(s.disk.processed)
    ensures DistinctTags(After(s, events).disk.processed) <==> MergesOnce(l, events)
    decreases |events|
  {
    if events != [] {
      var e, t := events[0], Step(s, events[0]);
      StepTracks(s, l, e);
      if Revisits(l, e) && !e.outcome.Failed? {
        var i :| 0 <= i < |s.disk.processed| && s.disk.processed[i] == e.tag;
        RepeatsStay(t, events[1..]);
        assert t.disk.processed[i] == t.disk.processed[|s.disk.processed|];
      } else {
        TagsStayDistinctIff(t, Noted(l, e), events[1..]);
      }
    }
  }

  /** A tag was merged twice, or it was merged and only an error is left of it. */
  ghost predicate Broken(a: Audit) {
    !DistinctTags(a.processed) || exists t :: t in a.processed && !HasCounted(a.rows, t)
  }

  lemma VisitStaysBroken(a: Audit, index: nat, tag: string, outcome: Outcome)
    requires Broken(a)
    ensures Broken(AuditAfter(a, index, tag, outcome))
  {
    var b := AuditAfter(a, index, tag, outcome);
    if DistinctTags(a.processed) {
      var t :| t in a.processed && !HasCounted(a.rows, t);
      if t == tag {
        ProcessedVisitBreaks(a, index, tag, outcome);
      } else {
        assert !HasCounted(b.rows, t);
      }
    } else {
      assert a.processed <= b.processed;
    }
  }

  lemma ProcessedVisitBreaks(a: Audit, index: nat, tag: string, outcome: Outcome)
    requires tag in a.processed
    ensures Broken(AuditAfter(a, index, tag, outcome))
  {
    var b := AuditAfter(a, index, tag, outcome);
    if outcome.Failed? {
      assert !HasCounted(b.rows, tag);
    } else {
      var i :| 0 <= i < |a.processed| && a.processed[i] == tag;
      assert b.processed[i] == b.processed[|a.processed|];
    }
  }

  lemma {:induction false} StaysBroken(s: System, l: Ledger, events: seq<Event>)
    requires Tracks(s, l) && Runnable(s, events) && Broken(s.disk)
    ensures Broken(After(s, events).disk)
    decreases |events|
  {
    if events != [] {
      var e := events[0];
      if e.Visit? && !Skipped(s, e) {
        VisitStaysBroken(s.disk, e.index, e.tag, e.outcome);
      }
      StepTracks(s, l, e);
      StaysBroken(Step(s, e), Noted(l, e), events[1..]);
    }
  }

  /**
   Over any interrupted and resumed runs, late failures included: the persisted totals are the sum of the rows'
   counts, the signature counts agree with them support state by support state, and the processed tags are, each
   once, those of the rows that are not errors, if and only if no run visits a family again that failed in it
   after the merge.
   */
  lemma {:induction false} CheckpointsAreConserved(s: System, l: Ledger, events: seq<Event>)
    requires Tracks(s, l) && Inv(s) && Runnable(s, events) && Sound(events)
    ensures Conserved(After(s, events).disk) <==> NoRevisit(l, events)
    decreases |events|
  {
    if events != [] {
      var e := events[0];
      SoundParts(events);
      StepTracks(s, l, e);
      if Returns(s, e) {
        ProcessedVisitBreaks(s.disk, e.index, e.tag, e.outcome);
        StaysBroken(Step(s, e), Noted(l, e), events[1..]);
      } else {
        StepKeepsInv(s, e);
        CheckpointsAreConserved(Step(s, e), Noted(l, e), events[1..]);
      }
    }
  }

  const EMPTY_LEDGER := Ledger({}, map[])

  lemma FreshIsSound()
    ensures Inv(Fresh()) && Tracks(Fresh(), EMPTY_LEDGER) && HasUniqueRows(Fresh())
  {
    assert Accounts([], multiset{}, multiset{}) by {
      assert SupportsOf([]) == [];
    }
  }

  /** No family occurs twice among the visits of one run, of which `seen` were before. */
  predicate TagsOncePerRun(events: seq<Event>, seen: set<string>)
    decreases |events|
  {
    events == []
    || match events[0]
       case Visit(_, tag, _) => tag !in seen && TagsOncePerRun(events[1..], seen + {tag})
       case _ => TagsOncePerRun(events[1..], {})
  }

  lemma {:induction false} OnceMeansNoRevisit(l: Ledger, events: seq<Event>, seen: set<string>)
    requires l.late.Keys <= seen && TagsOncePerRun(events, seen)
    ensures NoRevisit(l, events)
    decreases |events|
  {
    if events != [] {
      var e := events[0];
      OnceMeansNoRevisit(Noted(l, e), events[1..], if e.Visit? then seen + {e.tag} else {});
    }
  }

  /** Each family is merged at most once exactly when no run merges one again that failed in it after the merge. */
  lemma FamiliesMergeOnceIff(events: seq<Event>)
    requires Runnable(Fresh(), events)
    ensures DistinctTags(After(Fresh(), events).disk.processed) <==> MergesOnce(EMPTY_LEDGER, events)
  {
    FreshIsSound();
    TagsStayDistinctIff(Fresh(), EMPTY_LEDGER, events);
  }

  /** The totals are the sum of the rows exactly when visits to families that failed late replaced no counts. */
  lemma TotalsAreSumsIff(events: seq<Event>)
    requires Runnable(Fresh(), events)
    ensures After(Fresh(), events).disk.totals == SumRows(After(Fresh(), events).disk.rows) + Dropped(EMPTY_LEDGER, events)
    ensures After(Fresh(), events).disk.totals == SumRows(After(Fresh(), events).disk.rows)
       <==> Dropped(EMPTY_LEDGER, events) == multiset{}
  {
    FreshIsSound();
    TotalsExceedRows(Fresh(), EMPTY_LEDGER, events, multiset{});
    assert multiset{} + Dropped(EMPTY_LEDGER, events) == Dropped(EMPTY_LEDGER, events);
    SumsDiffer(SumRows(After(Fresh(), events).disk.rows), Dropped(EMPTY_LEDGER, events));
  }

  lemma SumsDiffer(a: Counts, d: Counts)
    ensures a + d == a <==> d == multiset{}
  {
    assert |a + d| == |a| + |d|;
  }

  // ---- One row per family ----

  /** A family whose report fails after the merge, when it was not skipped. */
  predicate IsLate(s: System, e: Event) {
    e.Visit? && e.outcome.FailedLate? && !Skipped(s, e)
  }

  predicate NoLate(s: System, events: seq<Event>)
    requires Runnable(s, events)
    decreases |events|
  {
    events == [] || (!IsLate(s, events[0]) && NoLate(Step(s, events[0]), events[1..]))
  }

  /** Whether every checkpoint on the way has one row per family. */
  predicate RowsStayUnique(s: System, events: seq<Event>)
    requires Runnable(s, events)
    decreases |events|
  {
    OneRowPerTag(s.disk.rows) && (events == [] || RowsStayUnique(Step(s, events[0]), events[1..]))
  }

  ghost predicate HasUniqueRows(s: System) {
    && OneRowPerTag(s.disk.rows) && Labelled(s.disk.rows) && (s.run != [] ==> s.run[0].audit == s.disk)
  }

  lemma NewRowIsUnique(rows: seq<Row>, row: Row)
    requires OneRowPerTag(rows)
    ensures OneRowPerTag(DropTag(rows, row.tag) + [row])
  {
    DropKeepsOrder(rows, row.tag);
    DroppedIsGone(rows, row.tag);
  }

  lemma VisitKeepsUniqueRows(a: Audit, index: nat, tag: string, outcome: Outcome)
    requires OneRowPerTag(a.rows) && !outcome.FailedLate?
    ensures OneRowPerTag(AuditAfter(a, index, tag, outcome).rows)
  {
    NewRowIsUnique(a.rows, if outcome.Failed? then ErrorRow(index, tag) else RecordOf(index, tag, outcome.analysis));
  }

  lemma StepKeepsUniqueRows(s: System, e: Event)
    requires HasUniqueRows(s) && Possible(s, e) && !IsLate(s, e)
    ensures HasUniqueRows(Step(s, e))
  {
    match e
    case Resume => RelabelChangesNothing(s.disk);
    case Interrupt =>
    case Visit(index, tag, outcome) =>
      if !Skipped(s, e) {
        VisitKeepsUniqueRows(s.disk, index, tag, outcome);
        VisitRest(s.disk, index, tag, outcome);
      }
  }

  /** Every checkpoint has one row per family exactly when no report fails after its merge. */
  lemma {:induction false} RowsStayUniqueIff(s: System, events: seq<Event>)
    requires HasUniqueRows(s) && Runnable(s, events)
    ensures RowsStayUnique(s, events) <==> NoLate(s, events)
    decreases |events|
  {
    if events != [] {
      if IsLate(s, events[0]) {
        LateFailureRepeatsTheTag(s, events[0]);
      } else {
        StepKeepsUniqueRows(s, events[0]);
        RowsStayUniqueIff(Step(s, events[0]), events[1..]);
      }
    }
  }

  lemma LateFailureRepeatsTheTag(s: System, e: Event)
    requires Possible(s, e) && IsLate(s, e)
    ensures !OneRowPerTag(Step(s, e).disk.rows)
  {
    var rows := Step(s, e).disk.rows;
    assert rows[|rows| - 2].tag == rows[|rows| - 1].tag;
  }

  /** After one, the same family may be merged a second time in the same run, and the totals exceed the rows. */
  lemma LateFailureCanMergeTwice(tag: string, a: Analysis)
    requires a.counts != multiset{}
    ensures var events := [Resume, Visit(0, tag, FailedLate(a)), Visit(1, tag, Merged(a))];
            && Runnable(Fresh(), events)
            && var disk := After(Fresh(), events).disk;
               !DistinctTags(disk.processed) && disk.totals == SumRows(disk.rows) + a.counts != SumRows(disk.rows)
  {
    var late, again := Visit(0, tag, FailedLate(a)), Visit(1, tag, Merged(a));
    var events := [Resume, late, again];
    assert events[1..] == [late, again] && [late, again][1..] == [again] && [again][1..] == [];
    assert Runnable(Step(Step(Fresh(), Resume), late), [again]);
    var l := Noted(Noted(EMPTY_LEDGER, Resume), late);
    assert Revisits(l, again) && l.late[tag] == a.counts;
    assert Dropped(l, [again]) == a.counts + Dropped(Noted(l, again), []);
    assert !MergesOnce(l, [again]);
    FamiliesMergeOnceIff(events);
    TotalsAreSumsIff(events);
  }

  /** The analysis that an event adds to the totals. */
  function MergedBy(s: System, e: Event): Counts {
    if e.Visit? && !e.outcome.Failed? && !Skipped(s, e) then e.outcome.analysis.counts else multiset{}
  }

  /** The counts merged along a run. */
  function MergedCounts(s: System, events: seq<Event>): Counts
    requires Runnable(s, events)
    decreases |events|
  {
    if events == [] then multiset{} else MergedBy(s, events[0]) + MergedCounts(Step(s, events[0]), events[1..])
  }

  ghost predicate TotalsAgree(s: System) {
    && Agree(s.disk.totals, s.disk.signatures)
    && (s.run != [] ==> s.run[0].audit.totals == s.disk.totals && s.run[0].audit.signatures == s.disk.signatures)
  }

  lemma StepAddsToTotals(s: System, e: Event)
    requires Possible(s, e) && Sound([e]) && TotalsAgree(s)
    ensures TotalsAgree(Step(s, e)) && Step(s, e).disk.totals == s.disk.totals + MergedBy(s, e)
  {
    assert e in [e];
    if e.Visit? && !e.outcome.Failed? && !Skipped(s, e) {
      AgreementIsAdditive(s.disk.totals, s.disk.signatures, e.outcome.analysis.counts, e.outcome.analysis.signatures);
    }
  }

  /** Even with late failures: totals are what was merged, and the signatures agree with them. */
  lemma {:induction false} TotalsAreWhatWasMerged(s: System, events: seq<Event>)
    requires Runnable(s, events) && Sound(events) && TotalsAgree(s)
    ensures TotalsAgree(After(s, events)) && After(s, events).disk.totals == s.disk.totals + MergedCounts(s, events)
    decreases |events|
  {
    if events != [] {
      SoundParts(events);
      StepAddsToTotals(s, events[0]);
      TotalsAreWhatWasMerged(Step(s, events[0]), events[1..]);
    }
  }

  lemma {:induction false} NoLateKeepsUniqueRows(s: System, l: Ledger, events: seq<Event>)
    requires Tracks(s, l) && l.late == map[] && HasUniqueRows(s) && Runnable(s, events) && NoLate(s, events)
    ensures NoRevisit(l, events) && OneRowPerTag(After(s, events).disk.rows)
    decreases |events|
  {
    if events != [] {
      var e := events[0];
      StepTracks(s, l, e);
      StepKeepsUniqueRows(s, e);
      assert e.Visit? && e.tag !in l.completed ==> !e.outcome.FailedLate?;
      assert Noted(l, e).late == map[];
      NoLateKeepsUniqueRows(Step(s, e), Noted(l, e), events[1..]);
    }
  }

  /**
   From an empty checkpoint. In particular the audit is conserved when no run has the same family twice, whatever
   fails; and when nothing fails after its merge, each family has one row besides.
   */
  lemma AuditsAreConserved(events: seq<Event>)
    requires Runnable(Fresh(), events) && Sound(events)
    ensures Conserved(After(Fresh(), events).disk) <==> NoRevisit(EMPTY_LEDGER, events)
    ensures TagsOncePerRun(events, {}) ==> Conserved(After(Fresh(), events).disk)
    ensures NoLate(Fresh(), events) ==> Conserved(After(Fresh(), events).disk) && OneRowPerTag(After(Fresh(), events).disk.rows)
    ensures var a := After(Fresh(), events).disk; |a.signatures| == |a.totals| - a.totals[NormalizedOnly]
  {
    FreshIsSound();
    CheckpointsAreConserved(Fresh(), EMPTY_LEDGER, events);
    if TagsOncePerRun(events, {}) {
      OnceMeansNoRevisit(EMPTY_LEDGER, events, {});
    }
    if NoLate(Fresh(), events) {
      NoLateKeepsUniqueRows(Fresh(), EMPTY_LEDGER, events);
    }
    TotalsAreWhatWasMerged(Fresh(), events);
    AgreementOfSums(After(Fresh(), events).disk.totals, After(Fresh(), events).disk.signatures);
  }

  // ---- The audit program ----

  class FamilyAudit {
    var totals: Counts
    var rows: seq<Row>
    var processed: seq<string>
    var signatures: multiset<Key>
    var completed: set<string>
    var disk: Audit

    ghost function Memory(): Audit
      reads this
    {
      Audit(totals, rows, processed, signatures)
    }

    ghost function Now(): System
      reads this
    {
      System(disk, [Run(Memory(), completed)])
    }

    /** The start of `run`. */
    constructor (disk: Audit)
      ensures this.disk == disk && Now() == Step(System(disk, []), Resume)
    {
      this.disk := disk;
      var loaded := Relabel(disk);
      totals, rows, processed, signatures := loaded.totals, loaded.rows, loaded.processed, loaded.signatures;
      completed := set t | t in disk.processed;
    }

    method MergeFamilyResult(row: Row, a: Analysis)
      modifies `totals, `rows, `processed, `signatures
      ensures Memory() == Merge(old(Memory()), row, a)
      ensures old(Agree(totals, signatures)) && IsAnalysis(a) ==> Agree(totals, signatures)
      ensures old(totals == SumRows(rows)) && row.counts == a.counts ==> totals == SumRows(rows)
    {
      SumSnoc(rows, row);
      if Agree(totals, signatures) && IsAnalysis(a) {
        AgreementIsAdditive(totals, signatures, a.counts, a.signatures);
      }
      totals := totals + a.counts;
      rows := rows + [row];
      processed := processed + [row.tag];
      signatures := signatures + a.signatures;
    }

    method RemoveRows(tag: string)
      modifies `rows
      ensures rows == DropTag(old(rows), tag)
    {
      var kept := [];
      for i := 0 to |rows|
        invariant rows == old(rows) && kept == DropTag(rows[..i], tag)
      {
        assert rows[..i + 1][..i] == rows[..i];
        if rows[i].tag != tag { kept := kept + [rows[i]]; }
      }
      assert rows[..|rows|] == rows;
      rows := kept;
    }

    /**
     One turn of the loop over the families, with the family's answer and what the report did. Unless the run
     comes back to a family that failed in it after the merge, the checkpoint that it writes is conserved if the
     last one was.
     */
    method VisitFamily(index: nat, tag: string, outcome: Outcome)
      modifies this
      ensures Now() == Step(old(Now()), Visit(index, tag, outcome))
      ensures old(Inv(Now()) && !Returns(Now(), Visit(index, tag, outcome))) && (!outcome.Failed? ==> IsAnalysis(outcome.analysis))
              ==> Inv(Now())
      ensures old(TotalsAgree(Now())) && (!outcome.Failed? ==> IsAnalysis(outcome.analysis)) ==> TotalsAgree(Now())
    {
      if Inv(Now()) && !Returns(Now(), Visit(index, tag, outcome)) && (!outcome.Failed? ==> IsAnalysis(outcome.analysis)) {
        StepKeepsInv(Now(), Visit(index, tag, outcome));
      }
      if TotalsAgree(Now()) && (!outcome.Failed? ==> IsAnalysis(outcome.analysis)) {
        StepAddsToTotals(Now(), Visit(index, tag, outcome));
      }
      TakeFamily(index, tag, outcome);
    }

    method TakeFamily(index: nat, tag: string, outcome: Outcome)
      modifies this
      ensures Now() == Step(old(Now()), Visit(index, tag, outcome))
    {
      if tag in completed { return; }
      RemoveRows(tag);
      match outcome {
        case Failed =>
          rows := rows + [ErrorRow(index, tag)];
        case Merged(a) =>
          MergeFamilyResult(RecordOf(index, tag, a), a);
        case FailedLate(a) =>
          MergeFamilyResult(RecordOf(index, tag, a), a);
          rows := rows + [ErrorRow(index, tag)];
      }
      disk := Audit(totals, rows, processed, signatures);
      assert completed + {} == completed;
      if outcome.Merged? { completed := completed + {tag}; }
    }
  }
}
