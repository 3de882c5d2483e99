/**
 Logs that seed each other by reference: walking the chain of references back
 to a log that stands alone, then rebuilding outward from it.

 Files are a map from path to the events that can be read there; a path that is
 not in it is one that cannot be read.
 */
module Chains {
  import opened Wrappers
  import opened Conversation
  import opened Transcript
  import opened Replay
  import opened Protocol
  import opened Collector
  import Writer

  const MAX_SEED_CHAIN_DEPTH: nat := 1024

  type Files = map<string, seq<Event>>

  // ------------------------------------------------------------- references

  /** A seed that only names its source. */
  predicate Refers(ev: Event) {
    ev.Seed? && ev.inline.None? && ev.sourcePath.Some?
  }

  /** The source that the first referring seed names. */
  function SeedReference(events: seq<Event>): Option<string> {
    if events == [] then None
    else if Refers(events[0]) then events[0].sourcePath
    else SeedReference(events[1..])
  }

  /** Every reference in a log names the same source. A log with at most one
      seed is such a log. */
  ghost predicate SingleSource(events: seq<Event>) {
    forall e | e in events && Refers(e) :: e.sourcePath == SeedReference(events)
  }

  ghost predicate SingleSources(files: Files, links: seq<string>) {
    forall p | p in links && p in files :: SingleSource(files[p])
  }

  lemma {:induction false} SeedReferenceMeaning(events: seq<Event>)
    ensures match SeedReference(events)
            case None => forall e | e in events :: !Refers(e)
            case Some(path) => exists i | 0 <= i < |events| ::
              Refers(events[i]) && events[i].sourcePath.value == path && forall j | 0 <= j < i :: !Refers(events[j])
  {
    if events != [] && !Refers(events[0]) {
      SeedReferenceMeaning(events[1..]);
      assert events == [events[0]] + events[1..];
      if SeedReference(events).Some? {
        var i :| 0 <= i < |events[1..]| && Refers(events[1..][i]) &&
            events[1..][i].sourcePath.value == SeedReference(events).value
                 && forall j | 0 <= j < i :: !Refers(events[1..][j]);
        assert events[i + 1] == events[1..][i];
        forall j | 0 <= j < i + 1 ensures !Refers(events[j]) {
          if j > 0 {
            assert events[j] == events[1..][j - 1];
          }
        }
      }
    }
  }

  lemma OneSeedIsSingleSource(events: seq<Event>)
    requires forall i, j | 0 <= i < j < |events| :: !(events[i].Seed? && events[j].Seed?)
    ensures SingleSource(events)
  {
    SeedReferenceMeaning(events);
    forall e | e in events && Refers(e) ensures e.sourcePath == SeedReference(events) {
      var i :| 0 <= i < |events| && Refers(events[i]) && events[i].sourcePath.value == SeedReference(events).value;
      var j :| 0 <= j < |events| && events[j] == e;
      assert i == j;
    }
  }

  // ---------------------------------------------------------------- the walk

  datatype Walk = Chain(links: seq<string>) | Stopped(error: ReplayError)

  /** The walk from `current`, when `visited` was walked before it. */
  function WalkFrom(files: Files, visited: seq<string>, current: string): Walk
    decreases MAX_SEED_CHAIN_DEPTH + 1 - |visited|
  {
    if current in visited then Stopped(SeedChainCycle(current))
    else if |visited| > MAX_SEED_CHAIN_DEPTH then Stopped(SeedChainTooDeep)
    else if current !in files then Stopped(SeedSource(current))
    else
      match SeedReference(files[current])
      case None => Chain(visited + [current])
      case Some(source) => WalkFrom(files, visited + [current], source)
  }

  /** The path `n` references away from `start`. */
  function LinkAt(files: Files, start: string, n: nat): Option<string> {
    if n == 0 then Some(start)
    else
      var before := LinkAt(files, start, n - 1);
      if before.Some? && before.value in files then SeedReference(files[before.value]) else None
  }

  ghost predicate Trail(files: Files, start: string, visited: seq<string>) {
    && (forall i | 0 <= i < |visited| :: LinkAt(files, start, i) == Some(visited[i]) && visited[i] in files)
    && Distinct(visited)
  }

  /** A looping chain: some path is reached again within the depth cap. */
  ghost predicate LoopsWithinCap(files: Files, start: string) {
    exists i: nat, j: nat | i < j <= MAX_SEED_CHAIN_DEPTH + 1 ::
      LinkAt(files, start, i).Some? && LinkAt(files, start, i) == LinkAt(files, start, j)
  }

  ghost predicate WalkReports(files: Files, start: string, w: Walk) {
    match w
    case Chain(links) =>
      && links != [] && links[0] == start && |links| <= MAX_SEED_CHAIN_DEPTH + 1
      && Trail(files, start, links) && LinkAt(files, start, |links|).None?
    case Stopped(SeedChainCycle(path)) =>
      exists i: nat, j: nat | i < j <= MAX_SEED_CHAIN_DEPTH + 1 ::
        LinkAt(files, start, i) == Some(path) == LinkAt(files, start, j)
    case Stopped(SeedChainTooDeep) =>
      && LinkAt(files, start, MAX_SEED_CHAIN_DEPTH + 1).Some?
      && forall i: nat, j: nat | i < j <= MAX_SEED_CHAIN_DEPTH + 1 :: LinkAt(files, start, i) != LinkAt(files, start, j)
    case Stopped(SeedSource(path)) =>
      path !in files && exists n: nat | n <= MAX_SEED_CHAIN_DEPTH :: LinkAt(files, start, n) == Some(path)
    case Stopped(_) => false
  }

  lemma {:induction false} WalkFromReports(files: Files, start: string, visited: seq<string>, current: string)
    requires Trail(files, start, visited) && LinkAt(files, start, |visited|) == Some(current)
    requires |visited| <= MAX_SEED_CHAIN_DEPTH + 1
    ensures WalkReports(files, start, WalkFrom(files, visited, current))
    decreases MAX_SEED_CHAIN_DEPTH + 1 - |visited|
  {
    if current in visited {
      var i :| 0 <= i < |visited| && visited[i] == current;
      assert LinkAt(files, start, i) == Some(current) == LinkAt(files, start, |visited|);
    } else if |visited| > MAX_SEED_CHAIN_DEPTH {
      forall i: nat, j: nat | i < j <= MAX_SEED_CHAIN_DEPTH + 1
        ensures LinkAt(files, start, i) != LinkAt(files, start, j)
      {
        assert LinkAt(files, start, i) == Some(visited[i]);
        assert j < |visited| ==> LinkAt(files, start, j) == Some(visited[j]);
      }
    } else if current in files {
      var longer := visited + [current];
      assert LinkAt(files, start, |longer|) == SeedReference(files[current]);
      assert Trail(files, start, longer);
      if SeedReference(files[current]).Some? {
        WalkFromReports(files, start, longer, SeedReference(files[current]).value);
      } else {
        assert LinkAt(files, start, 0) == Some(longer[0]);
      }
    }
  }

  lemma {:induction false} LinksRepeat(files: Files, start: string, i: nat, j: nat, k: nat)
    requires i < j && LinkAt(files, start, i).Some? && LinkAt(files, start, i) == LinkAt(files, start, j)
    ensures LinkAt(files, start, i + k) == LinkAt(files, start, j + k)
  {
    if k > 0 {
      LinksRepeat(files, start, i, j, k - 1);
    }
  }

  /** A path that repeats goes on repeating: the chain has no end. */
  lemma {:induction false} LoopHasNoEnd(files: Files, start: string, i: nat, j: nat, n: nat)
    requires i < j && LinkAt(files, start, i).Some? && LinkAt(files, start, i) == LinkAt(files, start, j)
    ensures LinkAt(files, start, n).Some?
  {
    if n > j {
      LoopHasNoEnd(files, start, i, j, n - (j - i));
      LinksRepeat(files, start, i, j, n - j);
    } else {
      EarlierLinks(files, start, n, j);
    }
  }

  lemma {:induction false} EarlierLinks(files: Files, start: string, n: nat, j: nat)
    requires n <= j && LinkAt(files, start, j).Some?
    ensures LinkAt(files, start, n).Some?
  {
    if n < j {
      EarlierLinks(files, start, n, j - 1);
    }
  }

  /** The walk ends, and says truly how: a chain that ends is walked to its end;
      a cycle is reported exactly when a path repeats within the cap. */
  lemma WalkReportsTruly(files: Files, start: string)
    ensures WalkReports(files, start, WalkFrom(files, [], start))
    ensures (WalkFrom(files, [], start).Stopped? && WalkFrom(files, [], start).error.SeedChainCycle?) <==>
            LoopsWithinCap(files, start)
  {
    WalkFromReports(files, start, [], start);
    var w := WalkFrom(files, [], start);
    if LoopsWithinCap(files, start) {
      var i: nat, j: nat :| i < j <= MAX_SEED_CHAIN_DEPTH + 1 &&
        LinkAt(files, start, i).Some? && LinkAt(files, start, i) == LinkAt(files, start, j);
      if w.Chain? {
        LoopHasNoEnd(files, start, i, j, |w.links|);
      } else if w.error.SeedSource? {
        var n: nat :| n <= MAX_SEED_CHAIN_DEPTH && LinkAt(files, start, n) == Some(w.error.path);
        LoopHasNoEnd(files, start, i, j, n + 1);
      }
    }
  }

  /** A chain walked to its end: each link is read and refers to the next, and
      the last one stands alone. */
  ghost predicate Linked(files: Files, links: seq<string>) {
    && links != [] && Distinct(links) && (forall p | p in links :: p in files)
    && (forall i | 0 <= i < |links| - 1 :: SeedReference(files[links[i]]) == Some(links[i + 1]))
    && SeedReference(files[Last(links)]).None?
  }

  lemma WalkedIsLinked(files: Files, start: string)
    requires WalkFrom(files, [], start).Chain?
    ensures Linked(files, WalkFrom(files, [], start).links)
    ensures WalkFrom(files, [], start).links[0] == start
    ensures |WalkFrom(files, [], start).links| <= MAX_SEED_CHAIN_DEPTH + 1
  {
    WalkFromReports(files, start, [], start);
    hide WalkFrom;
    var links := WalkFrom(files, [], start).links;
    assert forall i | 0 <= i < |links| :: links[i] in links;
    forall i | 0 <= i < |links| - 1 ensures SeedReference(files[links[i]]) == Some(links[i + 1]) {
      assert LinkAt(files, start, i) == Some(links[i]) && LinkAt(files, start, i + 1) == Some(links[i + 1]);
    }
    assert LinkAt(files, start, |links| - 1) == Some(Last(links));
  }

  // ------------------------------------------------------------ the rebuilding

  /** Reads only conversations that are rebuilt already. */
  function RebuiltReader(rebuilt: map<string, seq<Message>>, hash: seq<Message> -> string): SeedReader {
    SeedReader(path => if path in rebuilt then Success(rebuilt[path]) else Failure(SeedUnresolved(path)), hash)
  }

  /** The conversations of `links[k..]`, each read from those behind it. */
  function RebuildFrom(files: Files, hash: seq<Message> -> string, links: seq<string>,
                       k: nat): Result<map<string, seq<Message>>, ReplayError>
    requires k <= |links| && forall p | p in links :: p in files
    decreases |links| - k
  {
    if k == |links| then Success(map[])
    else
      match RebuildFrom(files, hash, links, k + 1)
      case Failure(e) => Failure(e)
      case Success(rebuilt) =>
        match Conversed(Fold(RebuiltReader(rebuilt, hash), files[links[k]]))
        case Failure(e) => Failure(e)
        case Success(ms) => Success(rebuilt[links[k] := ms])
  }

  /** The conversation of the log at `path`. */
  function Reconstructed(files: Files, hash: seq<Message> -> string, path: string): Result<seq<Message>, ReplayError> {
    match WalkFrom(files, [], path)
    case Stopped(e) => Failure(e)
    case Chain(links) =>
      WalkedIsLinked(files, path);
      match RebuildFrom(files, hash, links, 0)
      case Failure(e) => Failure(e)
      case Success(rebuilt) => if path in rebuilt then Success(rebuilt[path]) else Success([])
  }

  /** Phase one: the walk. */
  method WalkChain(files: Files, path: string) returns (w: Walk)
    ensures w == WalkFrom(files, [], path)
  {
    var chain: seq<string> := [];
    var visited: set<string> := {};
    var current := path;
    while true
      invariant visited == set p | p in chain
      invariant |chain| <= MAX_SEED_CHAIN_DEPTH + 1
      invariant WalkFrom(files, chain, current) == WalkFrom(files, [], path)
      decreases MAX_SEED_CHAIN_DEPTH + 1 - |chain|
    {
      if current in visited {
        return Stopped(SeedChainCycle(current));
      }
      visited := visited + {current};
      if |chain| > MAX_SEED_CHAIN_DEPTH {
        return Stopped(SeedChainTooDeep);
      }
      if current !in files {
        return Stopped(SeedSource(current));
      }
      var next := SeedReference(files[current]);
      chain := chain + [current];
      if next.None? {
        return Chain(chain);
      }
      current := next.value;
    }
  }

  /** Read a log and rebuild its conversation through the logs it refers to. */
  method ReconstructTranscript(files: Files, hash: seq<Message> -> string, path: string)
    returns (r: Result<seq<Message>, ReplayError>)
    ensures r == Reconstructed(files, hash, path)
  {
    hide Fold, Conversed, RebuiltReader, WalkReports, WalkFrom, SeedReference;
    var w := WalkChain(files, path);
    if w.Stopped? {
      return Failure(w.error);
    }
    WalkedIsLinked(files, path);
    assert forall i | 0 <= i < |w.links| :: w.links[i] in w.links;
    var rebuilt: map<string, seq<Message>> := map[];
    var k := |w.links|;
    while k > 0
      invariant 0 <= k <= |w.links|
      invariant RebuildFrom(files, hash, w.links, k) == Success(rebuilt)
    {
      k := k - 1;
      var messages := ReconstructWith(RebuiltReader(rebuilt, hash), files[w.links[k]]);
      if messages.Failure? {
        RebuildStaysFailed(files, hash, w.links, k, messages.error);
        return Failure(messages.error);
      }
      rebuilt := rebuilt[w.links[k] := messages.value];
    }
    r := if path in rebuilt then Success(rebuilt[path]) else Success([]);
  }

  lemma {:induction false} RebuildStaysFailed(files: Files, hash: seq<Message> -> string, links: seq<string>, k: nat,
                                              e: ReplayError)
    requires k <= |links| && (forall p | p in links :: p in files)
    requires RebuildFrom(files, hash, links, k) == Failure(e)
    ensures RebuildFrom(files, hash, links, 0) == Failure(e)
  {
    if k > 0 {
      RebuildStaysFailed(files, hash, links, k - 1, e);
    }
  }

  // ----------------------------------------------- the definition by recursion

  /** What a log means when every reference in it is read by the same rule, at
      most `depth` references deep. */
  function Meaning(files: Files, hash: seq<Message> -> string, path: string,
                   depth: nat): Result<seq<Message>, ReplayError>
    decreases depth
  {
    if path !in files then Failure(SeedSource(path))
    else Conversed(Fold(MeaningReader(files, hash, depth), files[path]))
  }

  function MeaningReader(files: Files, hash: seq<Message> -> string, depth: nat): SeedReader
    decreases depth, 0
  {
    SeedReader(
      source => if depth == 0 then Failure(SeedChainTooDeep) else Meaning(files, hash, source, depth - 1),
      hash)
  }

  lemma StepReadsOneSource(one: SeedReader, other: SeedReader, st: Replayed, ev: Event)
    requires one.hash == other.hash
    requires Refers(ev) ==> one.resolve(ev.sourcePath.value) == other.resolve(ev.sourcePath.value)
    ensures Step(one, st, ev) == Step(other, st, ev)
  {
    hide WrapFor, PushUserTurn, FlushInto, Taken;
  }

  lemma StepFails(reader: SeedReader, st: Replayed, ev: Event)
    ensures st.Broken? ==> Step(reader, st, ev) == st
    ensures st.Replayed? && !Refers(ev) ==> Step(reader, st, ev).Replayed?
    ensures st.Replayed? && Refers(ev) ==>
              var source := reader.resolve(ev.sourcePath.value);
              match source
              case Failure(e) => Step(reader, st, ev) == Broken(e)
              case Success(ms) =>
                Step(reader, st, ev) == if reader.hash(ms) == ev.sha then st.(messages := ms)
                                        else Broken(SeedHashMismatch(ev.sourcePath.value))
  {
    hide WrapFor, PushUserTurn, FlushInto, Taken;
  }

  /** A log reads a reader only at the source it refers to. */
  lemma {:induction false} FoldReadsOneSource(one: SeedReader, other: SeedReader, events: seq<Event>, source: string)
    requires one.hash == other.hash && one.resolve(source) == other.resolve(source)
    requires forall e | e in events && Refers(e) :: e.sourcePath.value == source
    ensures Fold(one, events) == Fold(other, events)
  {
    hide Step;
    if events != [] {
      assert events == DropLast(events) + [Last(events)] && Last(events) in events;
      assert forall e | e in DropLast(events) :: e in events;
      FoldReadsOneSource(one, other, DropLast(events), source);
      StepReadsOneSource(one, other, Fold(one, DropLast(events)), Last(events));
    }
  }

  lemma {:induction false} FoldReadsNothing(one: SeedReader, other: SeedReader, events: seq<Event>)
    requires one.hash == other.hash
    requires forall e | e in events :: !Refers(e)
    ensures Fold(one, events) == Fold(other, events)
  {
    hide Step;
    if events != [] {
      assert events == DropLast(events) + [Last(events)] && Last(events) in events;
      assert forall e | e in DropLast(events) :: e in events;
      FoldReadsNothing(one, other, DropLast(events));
      StepReadsOneSource(one, other, Fold(one, DropLast(events)), Last(events));
    }
  }

  /** A source that cannot be read is the error of the whole log. */
  lemma {:induction false} FailedSourceFails(reader: SeedReader, events: seq<Event>, source: string)
    requires reader.resolve(source).Failure?
    requires forall e | e in events && Refers(e) :: e.sourcePath.value == source
    ensures (exists e :: e in events && Refers(e)) ==> Fold(reader, events) == Broken(reader.resolve(source).error)
    ensures !(exists e :: e in events && Refers(e)) ==> Fold(reader, events).Replayed?
  {
    hide Step, Refers;
    if events != [] {
      assert events == DropLast(events) + [Last(events)] && Last(events) in events;
      assert forall e | e in DropLast(events) :: e in events;
      FailedSourceFails(reader, DropLast(events), source);
      StepFails(reader, Fold(reader, DropLast(events)), Last(events));
      assert forall e | e in events :: e in DropLast(events) || e == Last(events);
    }
  }

  /** Rebuilding a chain outward from its origin gives each link its meaning:
      the first failure is the meaning's failure. */
  lemma {:induction false} RebuildIsMeaning(files: Files, hash: seq<Message> -> string, links: seq<string>, k: nat,
                                            depth: nat)
    requires Linked(files, links) && k < |links| && |links| - 1 - k <= depth
    requires SingleSources(files, links)
    ensures match RebuildFrom(files, hash, links, k)
            case Failure(e) => Meaning(files, hash, links[k], depth) == Failure(e)
            case Success(rebuilt) =>
              links[k] in rebuilt && Meaning(files, hash, links[k], depth) == Success(rebuilt[links[k]])
    decreases |links| - k
  {
    hide Fold, Steps;
    var path := links[k];
    assert path in links;
    var events := files[path];
    SeedReferenceMeaning(events);
    var reader := MeaningReader(files, hash, depth);
    if k == |links| - 1 {
      assert RebuildFrom(files, hash, links, k + 1) == Success(map[]);
      FoldReadsNothing(RebuiltReader(map[], hash), reader, events);
    } else {
      var source := links[k + 1];
      RebuildIsMeaning(files, hash, links, k + 1, depth - 1);
      assert reader.resolve(source) == Meaning(files, hash, source, depth - 1);
      assert forall e | e in events && Refers(e) :: e.sourcePath.value == source;
      match RebuildFrom(files, hash, links, k + 1) {
        case Failure(e) => FailedSourceFails(reader, events, source);
        case Success(rebuilt) => FoldReadsOneSource(RebuiltReader(rebuilt, hash), reader, events, source);
      }
    }
  }

  /** What walking and rebuilding computes is the recursive definition. */
  lemma ReconstructedIsMeaning(files: Files, hash: seq<Message> -> string, path: string, depth: nat)
    requires WalkFrom(files, [], path).Chain? && depth >= |WalkFrom(files, [], path).links| - 1
    requires SingleSources(files, WalkFrom(files, [], path).links)
    ensures Reconstructed(files, hash, path) == Meaning(files, hash, path, depth)
  {
    WalkedIsLinked(files, path);
    hide WalkFrom, Meaning, RebuildFrom, SingleSource;
    RebuildIsMeaning(files, hash, WalkFrom(files, [], path).links, 0, depth);
  }

  // ------------------------------------------------------------ verified links

  /** A log that replays has every link it refers to verified: the source was
      read, and hashes to the recorded value. */
  lemma {:induction false} AcceptedLinksAreVerified(reader: SeedReader, events: seq<Event>, e: Event)
    requires Fold(reader, events).Replayed? && e in events && Refers(e)
    ensures reader.resolve(e.sourcePath.value).Success?
    ensures reader.hash(reader.resolve(e.sourcePath.value).value) == e.sha
  {
    hide Step;
    assert events == DropLast(events) + [Last(events)];
    StepFails(reader, Fold(reader, DropLast(events)), Last(events));
    if e in DropLast(events) {
      AcceptedLinksAreVerified(reader, DropLast(events), e);
    }
  }

  /** Every link of an accepted chain is verified, all the way down. */
  lemma {:induction false} AcceptedChainIsVerified(files: Files, hash: seq<Message> -> string, path: string, depth: nat,
                                                   n: nat)
    requires Meaning(files, hash, path, depth).Success? && n <= depth
    requires LinkAt(files, path, n).Some? && LinkAt(files, path, n).value in files
    ensures Meaning(files, hash, LinkAt(files, path, n).value, depth - n).Success?
    ensures forall e | e in files[LinkAt(files, path, n).value] && Refers(e) ::
              && depth > n && Meaning(files, hash, e.sourcePath.value, depth - n - 1).Success?
              && hash(Meaning(files, hash, e.sourcePath.value, depth - n - 1).value) == e.sha
  {
    hide Fold;
    if n > 0 {
      AcceptedChainIsVerified(files, hash, path, depth, n - 1);
      var before := LinkAt(files, path, n - 1).value;
      SeedReferenceMeaning(files[before]);
    }
    var link := LinkAt(files, path, n).value;
    forall e | e in files[link] && Refers(e)
      ensures depth > n && Meaning(files, hash, e.sourcePath.value, depth - n - 1).Success? &&
              hash(Meaning(files, hash, e.sourcePath.value, depth - n - 1).value) == e.sha {
      AcceptedLinksAreVerified(MeaningReader(files, hash, depth - n), files[link], e);
    }
  }

  /** The error of a replay is a hash mismatch, or its reader's. */
  lemma {:induction false} FoldErrors(reader: SeedReader, events: seq<Event>)
    requires forall source | reader.resolve(source).Failure? :: !reader.resolve(source).error.SeedUnresolved?
    ensures Fold(reader, events).Broken? ==> !Fold(reader, events).error.SeedUnresolved?
  {
    hide Step;
    if events != [] {
      FoldErrors(reader, DropLast(events));
      StepFails(reader, Fold(reader, DropLast(events)), Last(events));
    }
  }

  lemma {:induction false} MeaningIsNeverUnresolved(files: Files, hash: seq<Message> -> string, path: string,
                                                    depth: nat)
    ensures Meaning(files, hash, path, depth).Failure? ==> !Meaning(files, hash, path, depth).error.SeedUnresolved?
    decreases depth
  {
    hide Fold;
    if path in files {
      var reader := MeaningReader(files, hash, depth);
      forall source | reader.resolve(source).Failure? ensures !reader.resolve(source).error.SeedUnresolved? {
        if depth > 0 {
          MeaningIsNeverUnresolved(files, hash, source, depth - 1);
        }
      }
      FoldErrors(reader, files[path]);
    }
  }

  /** With one source a log, the rebuilding never meets an unresolved seed. */
  lemma NeverUnresolved(files: Files, hash: seq<Message> -> string, path: string)
    requires WalkFrom(files, [], path).Chain? ==> SingleSources(files, WalkFrom(files, [], path).links)
    ensures Reconstructed(files, hash, path).Failure? ==> !Reconstructed(files, hash, path).error.SeedUnresolved?
  {
    WalkFromReports(files, path, [], path);
    if WalkFrom(files, [], path).Chain? {
      WalkedIsLinked(files, path);
      ReconstructedIsMeaning(files, hash, path, MAX_SEED_CHAIN_DEPTH);
      MeaningIsNeverUnresolved(files, hash, path, MAX_SEED_CHAIN_DEPTH);
    }
  }

  // ------------------------------------------------------- one more log

  /** Seeds are read from the files. */
  function FilesReader(files: Files, hash: seq<Message> -> string): SeedReader {
    SeedReader(path => Reconstructed(files, hash, path), hash)
  }

  lemma {:induction false} LegalLogHasOneSeed(reader: SeedReader, log: seq<Event>)
    requires LegalLog(reader, log)
    ensures SingleSource(log)
  {
    forall i, j | 0 <= i < j < |log| ensures !(log[i].Seed? && log[j].Seed?) {
      PrefixIsLegal(reader, log, j);
      assert log[i] in log[..j];
    }
    OneSeedIsSingleSource(log);
  }

  /** A new log changes no walk among the files there were. */
  lemma {:induction false} WalkIgnoresNewFile(files: Files, path: string, log: seq<Event>, visited: seq<string>,
                                              current: string)
    requires path !in files && path !in visited
    requires WalkFrom(files, visited, current).Chain?
    ensures WalkFrom(files[path := log], [path] + visited, current) ==
            if |WalkFrom(files, visited, current).links| <= MAX_SEED_CHAIN_DEPTH
            then Chain([path] + WalkFrom(files, visited, current).links)
            else Stopped(SeedChainTooDeep)
    decreases MAX_SEED_CHAIN_DEPTH + 1 - |visited|
  {
    WalkGrows(files, visited, current);
    if |visited| < MAX_SEED_CHAIN_DEPTH {
      if SeedReference(files[current]).Some? {
        assert [path] + visited + [current] == [path] + (visited + [current]);
        WalkIgnoresNewFile(files, path, log, visited + [current], SeedReference(files[current]).value);
      } else {
        assert [path] + visited + [current] == [path] + (visited + [current]);
      }
    }
  }

  lemma {:induction false} WalkGrows(files: Files, visited: seq<string>, current: string)
    requires WalkFrom(files, visited, current).Chain?
    ensures |WalkFrom(files, visited, current).links| > |visited|
    decreases MAX_SEED_CHAIN_DEPTH + 1 - |visited|
  {
    if SeedReference(files[current]).Some? {
      WalkGrows(files, visited + [current], SeedReference(files[current]).value);
    }
  }

  lemma {:induction false} RebuildIgnoresNewFile(files: Files, path: string, log: seq<Event>,
                                                 hash: seq<Message> -> string, links: seq<string>, k: nat)
    requires path !in files && k <= |links| && forall p | p in links :: p in files
    ensures forall p | p in [path] + links :: p in files[path := log]
    ensures RebuildFrom(files[path := log], hash, [path] + links, k + 1) == RebuildFrom(files, hash, links, k)
    decreases |links| - k
  {
    hide Fold, Conversed, RebuiltReader;
    if k < |links| {
      RebuildIgnoresNewFile(files, path, log, hash, links, k + 1);
      assert ([path] + links)[k + 1] == links[k] && links[k] in links;
    }
  }

  /** A new log that refers to `source`, when the source's own chain ends. */
  lemma ReferringLogReadsBack(files: Files, hash: seq<Message> -> string, path: string, log: seq<Event>, source: string)
    requires path !in files && SeedReference(log) == Some(source) && SingleSource(log)
    requires Reconstructed(files, hash, source).Success? && Fold(FilesReader(files, hash), log).Replayed?
    ensures WalkFrom(files, [], source).Chain?
    ensures Reconstructed(files[path := log], hash, path) ==
            if |WalkFrom(files, [], source).links| <= MAX_SEED_CHAIN_DEPTH
            then Conversed(Fold(FilesReader(files, hash), log)) else Failure(SeedChainTooDeep)
  {
    hide Fold;
    var files' := files[path := log];
    WalkedIsLinked(files, source);
    WalkIgnoresNewFile(files, path, log, [], source);
    var links := WalkFrom(files, [], source).links;
    assert [path] + [] == [path] == [] + [path] && WalkFrom(files', [], path) == WalkFrom(files', [path], source);
    if |links| <= MAX_SEED_CHAIN_DEPTH {
      RebuildIgnoresNewFile(files, path, log, hash, links, 0);
      var rebuilt := RebuildFrom(files, hash, links, 0).value;
      RebuiltHoldsFirst(files, hash, links);
      FoldReadsOneSource(RebuiltReader(rebuilt, hash), FilesReader(files, hash), log, source);
    }
  }

  lemma LoneLogReadsBack(files: Files, hash: seq<Message> -> string, path: string, log: seq<Event>)
    requires SeedReference(log).None?
    ensures Reconstructed(files[path := log], hash, path) == Conversed(Fold(FilesReader(files, hash), log))
  {
    hide Fold;
    SeedReferenceMeaning(log);
    var files' := files[path := log];
    assert WalkFrom(files', [], path) == Chain([path]);
    assert RebuildFrom(files', hash, [path], 1) == Success(map[]);
    FoldReadsNothing(RebuiltReader(map[], hash), FilesReader(files, hash), log);
  }

  /** The chain from `source` ends, at a log that can be read and stands alone,
      before the `limit`-th reference. */
  ghost predicate EndsBefore(files: Files, source: string, limit: nat) {
    exists n: nat | n < limit ::
      var last := LinkAt(files, source, n);
      last.Some? && last.value in files && SeedReference(files[last.value]).None?
  }

  /** The chain behind a log leaves room for the log itself. */
  ghost predicate FitsBehind(files: Files, log: seq<Event>) {
    SeedReference(log).Some? ==> EndsBefore(files, SeedReference(log).value, MAX_SEED_CHAIN_DEPTH)
  }

  /** A chain is walked to its end exactly when it ends in time. */
  lemma EndsBeforeIsWalked(files: Files, source: string, limit: nat)
    requires limit <= MAX_SEED_CHAIN_DEPTH + 1
    ensures EndsBefore(files, source, limit) <==>
            WalkFrom(files, [], source).Chain? && |WalkFrom(files, [], source).links| <= limit
  {
    WalkReportsTruly(files, source);
    var w := WalkFrom(files, [], source);
    hide WalkFrom;
    if w.Chain? {
      var k := |w.links|;
      assert LinkAt(files, source, k - 1) == Some(w.links[k - 1]) && LinkAt(files, source, k).None?;
    }
    if EndsBefore(files, source, limit) {
      var n: nat :| n < limit && LinkAt(files, source, n).Some? && LinkAt(files, source, n).value in files &&
        SeedReference(files[LinkAt(files, source, n).value]).None?;
      assert LinkAt(files, source, n + 1).None?;
      if w.Stopped? {
        StoppedHasNoEnd(files, source, n, w.error);
      }
    }
  }

  /** A walk that stopped at an error is not one over a chain that ends. */
  lemma StoppedHasNoEnd(files: Files, source: string, n: nat, e: ReplayError)
    requires WalkReports(files, source, Stopped(e)) && n <= MAX_SEED_CHAIN_DEPTH
    ensures !(LinkAt(files, source, n).Some? && LinkAt(files, source, n).value in files &&
            LinkAt(files, source, n + 1).None?)
  {
    if LinkAt(files, source, n).Some? && LinkAt(files, source, n).value in files && LinkAt(files, source, n + 1).None? {
      match e {
        case SeedChainCycle(path) =>
          var i: nat, j: nat :| i < j <= MAX_SEED_CHAIN_DEPTH + 1 &&
              LinkAt(files, source, i) == Some(path) == LinkAt(files, source, j);
          LoopHasNoEnd(files, source, i, j, n + 1);
        case SeedChainTooDeep => EarlierLinks(files, source, n + 1, MAX_SEED_CHAIN_DEPTH + 1);
        case SeedSource(path) =>
          var m: nat :| m <= MAX_SEED_CHAIN_DEPTH && LinkAt(files, source, m) == Some(path);
          if m < n {
            EarlierLinks(files, source, m + 1, n);
          } else if m > n {
            EarlierLinks(files, source, n + 1, m);
          }
        case SeedUnresolved(_) =>
        case SeedHashMismatch(_) =>
      }
    }
  }

  /** A run's log, put beside the files its seed was read from, reads back as
      the run replayed it exactly when the chain it lengthens stays within the
      depth cap; otherwise it is too deep, and nothing worse. */
  lemma NewLogReadsBack(files: Files, hash: seq<Message> -> string, path: string, log: seq<Event>)
    requires path !in files && LegalLog(FilesReader(files, hash), log)
    ensures Conversed(Fold(FilesReader(files, hash), log)).Success?
    ensures Reconstructed(files[path := log], hash, path) ==
            if FitsBehind(files, log) then Conversed(Fold(FilesReader(files, hash), log)) else Failure(SeedChainTooDeep)
  {
    hide LegalLog, Legal, Step, Fold, WellFormed, WalkFrom, Reconstructed, SingleSource, EndsBefore;
    LegalLogIsWellFormed(FilesReader(files, hash), log);
    LegalLogHasOneSeed(FilesReader(files, hash), log);
    if SeedReference(log).None? {
      LoneLogReadsBack(files, hash, path, log);
    } else {
      ReferredIsRead(FilesReader(files, hash), log);
      EndsBeforeIsWalked(files, SeedReference(log).value, MAX_SEED_CHAIN_DEPTH);
      ReferringLogReadsBack(files, hash, path, log, SeedReference(log).value);
    }
  }

  lemma ReferredIsRead(reader: SeedReader, log: seq<Event>)
    requires Fold(reader, log).Replayed? && SeedReference(log).Some?
    ensures reader.resolve(SeedReference(log).value).Success?
  {
    hide Fold;
    SeedReferenceMeaning(log);
    var i :| 0 <= i < |log| && Refers(log[i]) && log[i].sourcePath.value == SeedReference(log).value;
    AcceptedLinksAreVerified(reader, log, log[i]);
  }

  lemma RebuiltHoldsFirst(files: Files, hash: seq<Message> -> string, links: seq<string>)
    requires links != [] && (forall p | p in links :: p in files) && RebuildFrom(files, hash, links, 0).Success?
    ensures links[0] in RebuildFrom(files, hash, links, 0).value
  {
    hide Fold;
  }

  // ------------------------------------------------------- a chain too deep

  /** The path of the `n`-th attempt. */
  function PathOf(n: nat): (path: string)
    ensures |path| == n
  {
    if n == 0 then "" else PathOf(n - 1) + "c"
  }

  /** Attempts that each died right after seeding: the first holds its
      conversation, each later one refers to the one before it. */
  function AttemptLog(hash: seq<Message> -> string, ms: seq<Message>, n: nat): seq<Event> {
    [RunStart, if n == 0 then Embedded(hash, ms) else Referring(hash, ms, PathOf(n - 1))]
  }

  function Embedded(hash: seq<Message> -> string, ms: seq<Message>): Event {
    Seed(hash(ms), None, Some(ms))
  }

  function Referring(hash: seq<Message> -> string, ms: seq<Message>, path: string): Event {
    Seed(hash(ms), Some(path), None)
  }

  /** The logs of the first `n` attempts. */
  function Attempts(hash: seq<Message> -> string, ms: seq<Message>, n: nat): Files {
    if n == 0 then map[] else Attempts(hash, ms, n - 1)[PathOf(n - 1) := AttemptLog(hash, ms, n - 1)]
  }

  lemma {:induction false} AttemptsAre(hash: seq<Message> -> string, ms: seq<Message>, n: nat)
    ensures forall p | p in Attempts(hash, ms, n) :: |p| < n
    ensures forall i: nat | i < n ::
              PathOf(i) in Attempts(hash, ms, n) && Attempts(hash, ms, n)[PathOf(i)] == AttemptLog(hash, ms, i)
  {
    hide AttemptLog;
    if n > 0 {
      AttemptsAre(hash, ms, n - 1);
    }
  }

  lemma AttemptRefers(hash: seq<Message> -> string, ms: seq<Message>, n: nat)
    ensures SeedReference(AttemptLog(hash, ms, n)) == if n == 0 then None else Some(PathOf(n - 1))
  {
    var log := AttemptLog(hash, ms, n);
    assert !Refers(log[0]) && (Refers(log[1]) <==> n > 0);
    assert log[1..][0] == log[1] && log[1..][1..] == [];
    assert SeedReference(log[1..][1..]).None?;
    assert SeedReference(log) == SeedReference(log[1..]);
  }

  lemma {:induction false} ReferenceStays(log: seq<Event>, more: seq<Event>)
    requires SeedReference(log).Some?
    ensures SeedReference(log + more) == SeedReference(log)
  {
    if !Refers(log[0]) {
      ReferenceStays(log[1..], more);
      assert (log + more)[1..] == log[1..] + more;
    }
  }

  lemma {:induction false} AttemptLinks(hash: seq<Message> -> string, ms: seq<Message>, n: nat, at: nat, k: nat)
    requires k <= at < n
    ensures LinkAt(Attempts(hash, ms, n), PathOf(at), k) == Some(PathOf(at - k))
  {
    hide Attempts, AttemptLog, PathOf;
    if k > 0 {
      AttemptLinks(hash, ms, n, at, k - 1);
      AttemptsAre(hash, ms, n);
      AttemptRefers(hash, ms, at - (k - 1));
    }
  }

  /** The first 1024 references leave room for one more log, and no later one
      does. */
  lemma AttemptFits(hash: seq<Message> -> string, ms: seq<Message>, n: nat)
    ensures FitsBehind(Attempts(hash, ms, n), AttemptLog(hash, ms, n)) <==> n <= MAX_SEED_CHAIN_DEPTH
  {
    hide Attempts, AttemptLog, PathOf, LinkAt;
    var files := Attempts(hash, ms, n);
    AttemptsAre(hash, ms, n);
    AttemptRefers(hash, ms, n);
    if n > 0 {
      AttemptLinks(hash, ms, n, n - 1, n - 1);
      AttemptRefers(hash, ms, 0);
      var start := PathOf(n - 1);
      forall k: nat | k < n - 1
        ensures LinkAt(files, start, k).Some? && LinkAt(files, start, k).value in files &&
                SeedReference(files[LinkAt(files, start, k).value]).Some? {
        AttemptLinks(hash, ms, n, n - 1, k);
        AttemptRefers(hash, ms, n - 1 - k);
      }
    }
  }

  lemma StartedLog(reader: SeedReader)
    ensures LegalLog(reader, [RunStart]) && Fold(reader, [RunStart]) == START
  {
    assert DropLast([RunStart]) == [] && Fold(reader, []) == START;
    assert Step(reader, START, RunStart) == START && LegalLog(reader, []);
  }

  lemma AttemptSeeds(reader: SeedReader, ms: seq<Message>, source: Option<string>, sp: Spoken)
    requires WellFormed(ms) && (source.Some? ==> reader.resolve(source.value) == Success(ms))
    ensures var seed := if source.None? then Embedded(reader.hash, ms) else Referring(reader.hash, ms, source.value);
            Step(reader, START, seed) == Replayed(ms, NOTHING, false) && Legal(reader, START, sp, seed)
  {
    Writer.TakesSeed(reader, sp, ms, source);
  }

  lemma AttemptIsLegal(reader: SeedReader, ms: seq<Message>, n: nat)
    requires WellFormed(ms) && (n > 0 ==> reader.resolve(PathOf(n - 1)) == Success(ms))
    ensures LegalLog(reader, AttemptLog(reader.hash, ms, n))
    ensures Fold(reader, AttemptLog(reader.hash, ms, n)) == Replayed(ms, NOTHING, false)
  {
    hide WellFormed, PathOf, Step, Legal, Heard;
    var log := AttemptLog(reader.hash, ms, n);
    assert DropLast(log) == [RunStart] && Last(log) == log[1];
    StartedLog(reader);
    AttemptSeeds(reader, ms, if n == 0 then None else Some(PathOf(n - 1)), Heard([RunStart]));
  }

  /** A chain of continuations that each kept the protocol: up to the depth cap
      it reads back, and the next one does not. */
  lemma {:induction false} TooManyContinuations(hash: seq<Message> -> string, ms: seq<Message>, n: nat)
    requires WellFormed(ms) && n <= MAX_SEED_CHAIN_DEPTH + 1
    ensures var files, path, log := Attempts(hash, ms, n), PathOf(n), AttemptLog(hash, ms, n);
            && path !in files && LegalLog(FilesReader(files, hash), log)
            && Fold(FilesReader(files, hash), log) == Replayed(ms, NOTHING, false)
            && Reconstructed(files[path := log], hash, path) ==
                 if n <= MAX_SEED_CHAIN_DEPTH then Success(ms) else Failure(SeedChainTooDeep)
  {
    hide WellFormed, Attempts, AttemptLog, PathOf, LegalLog, Fold, FitsBehind, Reconstructed;
    var files := Attempts(hash, ms, n);
    AttemptsAre(hash, ms, n);
    if n > 0 {
      TooManyContinuations(hash, ms, n - 1);
      OneMoreAttempt(hash, ms, n);
    }
    AttemptIsLegal(FilesReader(files, hash), ms, n);
    AttemptFits(hash, ms, n);
    NewLogReadsBack(files, hash, PathOf(n), AttemptLog(hash, ms, n));
  }

  lemma OneMoreAttempt(hash: seq<Message> -> string, ms: seq<Message>, n: nat)
    requires n > 0
    ensures Attempts(hash, ms, n) == Attempts(hash, ms, n - 1)[PathOf(n - 1) := AttemptLog(hash, ms, n - 1)]
  {
  }

  /** What was read without a missing file is read the same beside a new one. */
  lemma {:induction false} WalkKeeps(files: Files, path: string, log: seq<Event>, visited: seq<string>, current: string)
    requires path !in files
    requires !(WalkFrom(files, visited, current).Stopped? && WalkFrom(files, visited, current).error.SeedSource?)
    ensures WalkFrom(files[path := log], visited, current) == WalkFrom(files, visited, current)
    decreases MAX_SEED_CHAIN_DEPTH + 1 - |visited|
  {
    if current !in visited && |visited| <= MAX_SEED_CHAIN_DEPTH && SeedReference(files[current]).Some? {
      WalkKeeps(files, path, log, visited + [current], SeedReference(files[current]).value);
    }
  }

  lemma {:induction false} RebuildKeeps(files: Files, hash: seq<Message> -> string, path: string, log: seq<Event>,
                                        links: seq<string>, k: nat)
    requires path !in files && k <= |links| && forall p | p in links :: p in files
    ensures RebuildFrom(files[path := log], hash, links, k) == RebuildFrom(files, hash, links, k)
    decreases |links| - k
  {
    hide Fold;
    if k < |links| {
      RebuildKeeps(files, hash, path, log, links, k + 1);
      assert links[k] in links;
    }
  }

  lemma OldLogReadsTheSame(files: Files, hash: seq<Message> -> string, path: string, log: seq<Event>, earlier: string)
    requires path !in files
    requires !(WalkFrom(files, [], earlier).Stopped? && WalkFrom(files, [], earlier).error.SeedSource?)
    ensures WalkFrom(files[path := log], [], earlier) == WalkFrom(files, [], earlier)
    ensures Reconstructed(files[path := log], hash, earlier) == Reconstructed(files, hash, earlier)
  {
    hide RebuildFrom;
    WalkKeeps(files, path, log, [], earlier);
    hide WalkFrom;
    if WalkFrom(files, [], earlier).Chain? {
      WalkedIsLinked(files, earlier);
      RebuildKeeps(files, hash, path, log, WalkFrom(files, [], earlier).links, 0);
    }
  }
}
